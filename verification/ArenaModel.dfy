/**
  The slab arena on values: geometry, one Alloc, one Free, and runs of both. Offsets are
  computed modulo 2^32, the occupancy modulo 2^64 and the sequence wraps past 0, as the
  fixed-width code does.
*/
module ArenaModel {
  import opened Common

  const TWO32 := 0x1_0000_0000
  const TWO64 := 0x1_0000_0000_0000_0000

  datatype SizeClass = SizeClass(slabSize: nat, slabCount: nat, base: nat)

  datatype SlabHandle = SlabHandle(
    offset: nat, length: nat, generation: nat, sequence: nat, cls: nat, index: nat, owner: nat)

  /** One class's free stack and its live sequence per slab, 0 for a slab not live. */
  datatype Pool = Pool(free: seq<nat>, liveSeq: seq<nat>)

  datatype Config = Config(classes: seq<SizeClass>, memLen: nat, generation: nat, id: nat)

  datatype State = State(pools: seq<Pool>, nextSeq: nat, occupancy: nat)

  /** The slice handed out is mem[lo..hi]. */
  datatype AllocResult = Allocated(handle: SlabHandle, lo: nat, hi: nat) | ZeroLength | TooLarge | Exhausted

  // ---------------------------------------------------------------- geometry

  function Extent(k: SizeClass): nat {
    k.base + k.slabSize * k.slabCount
  }

  /** What the layout guarantees of a class table: positive ascending slab sizes,
      contiguous classes from offset 0, everything below 2^32. */
  predicate Contiguous(classes: seq<SizeClass>) {
    && (|classes| > 0 ==> classes[0].base == 0)
    && (forall c :: 0 <= c < |classes| ==> classes[c].slabSize > 0 && Extent(classes[c]) < TWO32)
    && (forall c :: 0 < c < |classes| ==>
          classes[c].base == Extent(classes[c - 1]) && classes[c - 1].slabSize < classes[c].slabSize)
  }

  /** A configuration New accepts. */
  predicate Sound(cfg: Config) {
    && |cfg.classes| > 0
    && Contiguous(cfg.classes)
    && (forall c :: 0 <= c < |cfg.classes| ==> cfg.classes[c].slabCount > 0 && Extent(cfg.classes[c]) <= cfg.memLen)
  }

  /** Class 0 keeps slab 0 back: offset 0 means "no slab". */
  function FirstIndex(c: nat): nat {
    if c == 0 then 1 else 0
  }

  function Lo(cfg: Config, c: nat, i: nat): nat
    requires c < |cfg.classes|
  {
    cfg.classes[c].base + i * cfg.classes[c].slabSize
  }

  function Hi(cfg: Config, c: nat, i: nat): nat
    requires c < |cfg.classes|
  {
    Lo(cfg, c, i) + cfg.classes[c].slabSize
  }

  predicate IsSlab(cfg: Config, c: nat, i: nat) {
    c < |cfg.classes| && FirstIndex(c) <= i < cfg.classes[c].slabCount
  }

  lemma {:induction false} NextMultiple(i: nat, j: nat, size: nat)
    requires i < j
    ensures i * size + size <= j * size
  {
    if i + 1 < j {
      NextMultiple(i, j - 1, size);
    }
    assert j * size == (j - 1) * size + size;
  }

  lemma {:induction false} BasesAscend(cfg: Config, c: nat, d: nat)
    requires Sound(cfg) && c < d < |cfg.classes|
    ensures Extent(cfg.classes[c]) <= cfg.classes[d].base
  {
    if c + 1 < d {
      BasesAscend(cfg, c, d - 1);
    }
  }

  lemma SlabWithinClass(cfg: Config, c: nat, i: nat)
    requires Sound(cfg) && c < |cfg.classes| && i < cfg.classes[c].slabCount
    ensures cfg.classes[c].base <= Lo(cfg, c, i) < Hi(cfg, c, i) <= Extent(cfg.classes[c])
  {
    var k := cfg.classes[c];
    NextMultiple(i, k.slabCount, k.slabSize);
    assert k.slabSize * k.slabCount == k.slabCount * k.slabSize;
  }

  /** A usable slab lies inside mem, off offset 0, and its 32-bit offset does not wrap. */
  lemma SlabInside(cfg: Config, c: nat, i: nat)
    requires Sound(cfg) && IsSlab(cfg, c, i)
    ensures 0 < Lo(cfg, c, i) < Hi(cfg, c, i) <= cfg.memLen
    ensures (cfg.classes[c].base + i * cfg.classes[c].slabSize % TWO32) % TWO32 == Lo(cfg, c, i)
  {
    SlabWithinClass(cfg, c, i);
    if c == 0 {
      NextMultiple(0, i, cfg.classes[0].slabSize);
    } else {
      BasesAscend(cfg, 0, c);
      assert cfg.classes[0].slabSize * cfg.classes[0].slabCount > 0;
    }
  }

  lemma SlabsDisjoint(cfg: Config, c: nat, i: nat, d: nat, j: nat)
    requires Sound(cfg) && IsSlab(cfg, c, i) && IsSlab(cfg, d, j) && (c, i) != (d, j)
    ensures Hi(cfg, c, i) <= Lo(cfg, d, j) || Hi(cfg, d, j) <= Lo(cfg, c, i)
  {
    SlabWithinClass(cfg, c, i);
    SlabWithinClass(cfg, d, j);
    if c < d {
      BasesAscend(cfg, c, d);
    } else if d < c {
      BasesAscend(cfg, d, c);
    } else {
      NextMultiple(if i < j then i else j, if i < j then j else i, cfg.classes[c].slabSize);
    }
  }

  // ---------------------------------------------------------------- operations

  /** c is the smallest class that can hold size bytes. */
  predicate Serves(classes: seq<SizeClass>, c: nat, size: nat) {
    c < |classes| && size <= classes[c].slabSize && forall d :: 0 <= d < c ==> classes[d].slabSize < size
  }

  function FirstFit(classes: seq<SizeClass>, size: nat, from: nat := 0): (r: Option<nat>)
    requires from <= |classes|
    requires forall d :: 0 <= d < from ==> classes[d].slabSize < size
    ensures r.Some? ==> Serves(classes, r.value, size)
    ensures r.None? ==> forall d :: 0 <= d < |classes| ==> classes[d].slabSize < size
    decreases |classes| - from
  {
    if from == |classes| then None
    else if classes[from].slabSize >= size then Some(from)
    else FirstFit(classes, size, from + 1)
  }

  lemma ServingClassIsUnique(classes: seq<SizeClass>, c: nat, d: nat, size: nat)
    requires Serves(classes, c, size) && Serves(classes, d, size)
    ensures c == d
  {
  }

  /** The sequence counter after handing out seq: 2^64 wraps, and 0 is skipped. */
  function NextSequence(n: nat): nat {
    if (n + 1) % TWO64 == 0 then 1 else (n + 1) % TWO64
  }

  /** The shapes the code indexes by. */
  predicate Shaped(cfg: Config, s: State) {
    && |s.pools| == |cfg.classes|
    && (forall c :: 0 <= c < |cfg.classes| ==> |s.pools[c].liveSeq| == cfg.classes[c].slabCount)
    && (forall c, k :: 0 <= c < |cfg.classes| && 0 <= k < |s.pools[c].free| ==>
          s.pools[c].free[k] < cfg.classes[c].slabCount)
  }

  function Alloc(cfg: Config, s: State, size: nat): (State, AllocResult)
    requires Shaped(cfg, s)
  {
    if size == 0 then (s, ZeroLength)
    else
      match FirstFit(cfg.classes, size)
      case None => (s, TooLarge)
      case Some(c) =>
        if s.pools[c].free == [] then (s, Exhausted)
        else
          var k, pool := cfg.classes[c], s.pools[c];
          var top := |pool.free| - 1;
          var idx := pool.free[top];
          var off := (k.base + idx * k.slabSize % TWO32) % TWO32;
          (State(s.pools[c := Pool(pool.free[..top], pool.liveSeq[idx := s.nextSeq])],
                 NextSequence(s.nextSeq),
                 (s.occupancy + k.slabSize) % TWO64),
           Allocated(SlabHandle(off, size, cfg.generation, s.nextSeq, c, idx, cfg.id), off, off + k.slabSize))
  }

  /** The slab h names carries h's sequence. */
  predicate LiveAs(cfg: Config, s: State, h: SlabHandle)
    requires Shaped(cfg, s)
  {
    && h.cls < |cfg.classes| && h.index < cfg.classes[h.cls].slabCount
    && s.pools[h.cls].liveSeq[h.index] == h.sequence
  }

  predicate Ours(cfg: Config, h: SlabHandle) {
    h.owner == cfg.id && h.generation == cfg.generation
  }

  /** True and the slab returned, or false and nothing changed. */
  function Free(cfg: Config, s: State, h: SlabHandle): (State, bool)
    requires Shaped(cfg, s)
  {
    if h.owner != cfg.id || h.generation != cfg.generation then (s, false)
    else if h.cls >= |cfg.classes| || h.index >= cfg.classes[h.cls].slabCount then (s, false)
    else if s.pools[h.cls].liveSeq[h.index] == 0 || s.pools[h.cls].liveSeq[h.index] != h.sequence then (s, false)
    else
      var pool := s.pools[h.cls];
      (State(s.pools[h.cls := Pool(pool.free + [h.index], pool.liveSeq[h.index := 0])],
             s.nextSeq,
             (s.occupancy + (TWO64 - cfg.classes[h.cls].slabSize) % TWO64) % TWO64),
       true)
  }

  // ---------------------------------------------------------------- runs

  /** The arena, how many allocations succeeded, every handle it minted, and those not
      freed since. */
  datatype World = World(s: State, allocs: nat, minted: set<SlabHandle>, outstanding: set<SlabHandle>)

  datatype Op = AllocOp(size: nat) | FreeOp(handle: SlabHandle)

  function Descending(n: nat, first: nat): (r: seq<nat>)
    ensures |r| == if n > first then n - first else 0
    ensures forall k :: 0 <= k < |r| ==> r[k] == n - 1 - k
  {
    if n > first then [n - 1] + Descending(n - 1, first) else []
  }

  /** Indices are pushed highest first, so pops come out ascending. */
  function FreshPool(k: SizeClass, c: nat): Pool {
    Pool(Descending(k.slabCount, FirstIndex(c)), seq(k.slabCount, _ => 0))
  }

  function Start(cfg: Config): State {
    State(seq(|cfg.classes|, c requires 0 <= c < |cfg.classes| => FreshPool(cfg.classes[c], c)), 1, 0)
  }

  /** The fields Free and Validate look at: two handles that agree on them are the same
      claim to a slab. */
  predicate SameClaim(h: SlabHandle, g: SlabHandle) {
    && h.owner == g.owner && h.generation == g.generation && h.sequence == g.sequence
    && h.cls == g.cls && h.index == g.index
  }

  function Except(handles: set<SlabHandle>, h: SlabHandle): set<SlabHandle> {
    set g | g in handles && !SameClaim(g, h)
  }

  /** Any caller may pass any handle: its own, a freed one, another arena's, or garbage. */
  function Apply(cfg: Config, w: World, op: Op): World
    requires Shaped(cfg, w.s)
  {
    match op
    case AllocOp(size) =>
      var (s', r) := Alloc(cfg, w.s, size);
      if r.Allocated? then World(s', w.allocs + 1, w.minted + {r.handle}, w.outstanding + {r.handle}) else w.(s := s')
    case FreeOp(h) =>
      var (s', ok) := Free(cfg, w.s, h);
      if ok then w.(s := s', outstanding := Except(w.outstanding, h)) else w.(s := s')
  }

  ghost predicate Step(cfg: Config, w: World, w': World) {
    Shaped(cfg, w.s) && exists op :: w' == Apply(cfg, w, op)
  }

  ghost predicate IsRun(cfg: Config, run: seq<World>) {
    && |run| > 0 && run[0] == World(Start(cfg), 0, {}, {})
    && forall i :: 0 <= i < |run| - 1 ==> Step(cfg, run[i], run[i + 1])
  }

  // ---------------------------------------------------------------- invariants

  /** A class's usable indices split into a duplicate-free free list and the live slabs. */
  predicate Split(pool: Pool, count: nat, first: nat) {
    && |pool.liveSeq| == count
    && (forall i, j :: 0 <= i < j < |pool.free| ==> pool.free[i] != pool.free[j])
    && (forall k :: 0 <= k < |pool.free| ==> first <= pool.free[k] < count && pool.liveSeq[pool.free[k]] == 0)
    && (forall i :: first <= i < count && pool.liveSeq[i] == 0 ==> i in pool.free)
    && (forall i :: 0 <= i < count && i < first ==> pool.liveSeq[i] == 0)
  }

  predicate SlabInv(cfg: Config, s: State) {
    && |s.pools| == |cfg.classes|
    && (forall c :: 0 <= c < |cfg.classes| ==> Split(s.pools[c], cfg.classes[c].slabCount, FirstIndex(c)))
    && 0 < s.nextSeq < TWO64
  }

  function LiveCount(liveSeq: seq<nat>): (n: nat)
    ensures n <= |liveSeq|
  {
    if liveSeq == [] then 0
    else LiveCount(liveSeq[..|liveSeq| - 1]) + if liveSeq[|liveSeq| - 1] != 0 then 1 else 0
  }

  function ClassBytes(k: SizeClass, pool: Pool): nat {
    LiveCount(pool.liveSeq) * k.slabSize
  }

  /** Bytes of the live slabs of the first n classes. */
  function LiveBytes(classes: seq<SizeClass>, pools: seq<Pool>, n: nat): nat
    requires n <= |classes| && |pools| == |classes|
  {
    if n == 0 then 0 else LiveBytes(classes, pools, n - 1) + ClassBytes(classes[n - 1], pools[n - 1])
  }

  predicate OccupancyInv(cfg: Config, s: State) {
    |s.pools| == |cfg.classes| && s.occupancy == LiveBytes(cfg.classes, s.pools, |cfg.classes|)
  }

  predicate Minted(cfg: Config, h: SlabHandle, allocs: nat) {
    && Ours(cfg, h) && IsSlab(cfg, h.cls, h.index)
    && 1 <= h.sequence <= allocs
    && h.offset == Lo(cfg, h.cls, h.index)
    && Serves(cfg.classes, h.cls, h.length) && 0 < h.length
  }

  /** Sequences identify minted handles, and the outstanding ones are exactly those whose
      slab still carries their sequence. */
  predicate HandleInv(cfg: Config, w: World)
    requires Shaped(cfg, w.s)
  {
    && w.s.nextSeq == (if w.allocs + 1 < TWO64 then w.allocs + 1 else 1)
    && (forall h :: h in w.minted ==> Minted(cfg, h, w.allocs))
    && (forall h, g :: h in w.minted && g in w.minted && h.sequence == g.sequence ==> h == g)
    && (forall h :: h in w.outstanding ==> h in w.minted)
    && (forall h :: h in w.minted ==> (h in w.outstanding <==> LiveAs(cfg, w.s, h)))
  }

  predicate Claims(handles: set<SlabHandle>, c: nat, i: nat, sequence: nat) {
    exists h :: h in handles && h.cls == c && h.index == i && h.sequence == sequence
  }

  /** Every live slab was handed out: somebody holds its handle. */
  predicate OwnerInv(cfg: Config, w: World)
    requires Shaped(cfg, w.s)
  {
    forall c, i :: 0 <= c < |cfg.classes| && 0 <= i < cfg.classes[c].slabCount && w.s.pools[c].liveSeq[i] != 0
      ==> Claims(w.outstanding, c, i, w.s.pools[c].liveSeq[i])
  }

  predicate Inv(cfg: Config, w: World) {
    && SlabInv(cfg, w.s) && Shaped(cfg, w.s) && OccupancyInv(cfg, w.s)
    && (w.allocs < TWO64 ==> HandleInv(cfg, w) && OwnerInv(cfg, w))
  }
}
