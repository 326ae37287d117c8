/**
  The allocator as the source runs it: a scan for the serving class, an object whose free
  stacks, stamps, sequence and occupancy are updated in place, and a constructor that
  refuses a bad configuration. Each method is tied to the operation of the same name on
  values, about which the theorems are proved.
*/
module Arena {
  import opened Common
  import opened ArenaModel
  import opened ArenaTheorems

  method SelectClass(classes: seq<SizeClass>, size: nat) returns (i: nat, ok: bool)
    ensures ok ==> Serves(classes, i, size)
    ensures !ok ==> i == 0 && forall d :: 0 <= d < |classes| ==> classes[d].slabSize < size
  {
    i := 0;
    while i < |classes|
      invariant i <= |classes|
      invariant forall d :: 0 <= d < i ==> classes[d].slabSize < size
    {
      if classes[i].slabSize >= size {
        return i, true;
      }
      i := i + 1;
    }
    return 0, false;
  }

  /** The highest offset any class's slabs reach. */
  method MaxSlabExtent(classes: seq<SizeClass>) returns (maxEnd: nat)
    ensures forall c :: 0 <= c < |classes| ==> Extent(classes[c]) <= maxEnd
    ensures maxEnd == 0 || exists c :: 0 <= c < |classes| && maxEnd == Extent(classes[c])
  {
    maxEnd := 0;
    for i := 0 to |classes|
      invariant forall c :: 0 <= c < i ==> Extent(classes[c]) <= maxEnd
      invariant maxEnd == 0 || exists c :: 0 <= c < i && maxEnd == Extent(classes[c])
    {
      var end := Extent(classes[i]);
      if end > maxEnd {
        maxEnd := end;
      }
    }
  }

  /** Only class 0 keeps its slab 0 back. */
  method NewClassState(k: SizeClass, reserveZero: bool) returns (pool: Pool)
    requires k.slabCount > 0
    ensures pool == FreshPool(k, if reserveZero then 0 else 1)
  {
    var first := if reserveZero then 1 else 0;
    var free: seq<nat> := [];
    var i := k.slabCount;
    while i > first
      invariant first <= i <= k.slabCount
      invariant |free| == k.slabCount - i && forall j :: 0 <= j < |free| ==> free[j] == k.slabCount - 1 - j
    {
      free := free + [i - 1];
      i := i - 1;
    }
    assert free == Descending(k.slabCount, first);
    pool := Pool(free, seq(k.slabCount, _ => 0));
  }

  /** The process-wide identity counter, skipping a wrapped 0. */
  method MintArenaID(counter: nat) returns (id: nat, next: nat)
    requires counter < TWO64
    ensures id == next == NextSequence(counter) && 0 < id < TWO64
  {
    next := (counter + 1) % TWO64;
    while next == 0
      invariant next == 0 ==> counter + 1 == TWO64
      invariant next == (counter + 1) % TWO64 || (counter + 1 == TWO64 && next == 1)
      decreases if next == 0 then 1 else 0
    {
      next := (next + 1) % TWO64;
    }
    id := next;
  }

  /** Free stacks and stamps are per-class lists; geometry, generation and identity never
      change after construction. */
  class Slabs {
    const cfg: Config
    var pools: seq<Pool>
    var nextSeq: nat
    var occupancy: nat

    ghost function View(): State
      reads this
    {
      State(pools, nextSeq, occupancy)
    }

    ghost predicate Valid()
      reads this
    {
      Shaped(cfg, View())
    }

    constructor (cfg: Config, pools: seq<Pool>)
      ensures this.cfg == cfg && View() == State(pools, 1, 0)
      ensures Shaped(cfg, State(pools, 1, 0)) ==> Valid()
    {
      this.cfg, this.pools, this.nextSeq, this.occupancy := cfg, pools, 1, 0;
    }

    /** The current sequence, advancing the counter past 2^64-1 to 1. */
    method NextAllocSeq() returns (seqNo: nat)
      modifies this`nextSeq
      ensures seqNo == old(nextSeq) && nextSeq == NextSequence(old(nextSeq))
    {
      seqNo := nextSeq;
      nextSeq := (nextSeq + 1) % TWO64;
      if nextSeq == 0 {
        nextSeq := 1;
      }
    }

    method Alloc(size: nat) returns (r: AllocResult)
      requires Valid()
      modifies this
      ensures (View(), r) == ArenaModel.Alloc(cfg, old(View()), size)
      ensures Valid()
    {
      if size == 0 {
        return ZeroLength;
      }
      var ci, ok := SelectClass(cfg.classes, size);
      ghost var fit := FirstFit(cfg.classes, size);
      if !ok {
        assert fit.None?;
        return TooLarge;
      }
      ServingClassIsUnique(cfg.classes, ci, fit.value, size);
      var pool := pools[ci];
      if |pool.free| == 0 {
        return Exhausted;
      }
      var idx := pool.free[|pool.free| - 1];
      pools := pools[ci := pool.(free := pool.free[..|pool.free| - 1])];
      var seqNo := NextAllocSeq();
      pools := pools[ci := pools[ci].(liveSeq := pools[ci].liveSeq[idx := seqNo])];
      var sc := cfg.classes[ci];
      occupancy := (occupancy + sc.slabSize) % TWO64;
      var off := (sc.base + idx * sc.slabSize % TWO32) % TWO32;
      assert pools == old(pools)[ci := Pool(pool.free[..|pool.free| - 1], pool.liveSeq[idx := seqNo])];
      return Allocated(SlabHandle(off, size, cfg.generation, seqNo, ci, idx, cfg.id), off, off + sc.slabSize);
    }

    method Free(h: SlabHandle) returns (ok: bool)
      requires Valid()
      modifies this
      ensures (View(), ok) == ArenaModel.Free(cfg, old(View()), h)
      ensures Valid()
    {
      if h.owner != cfg.id {
        return false;
      }
      if h.generation != cfg.generation {
        return false;
      }
      if h.cls >= |pools| || h.index >= cfg.classes[h.cls].slabCount {
        return false;
      }
      var live := pools[h.cls].liveSeq[h.index];
      if live == 0 {
        return false;
      }
      if live != h.sequence {
        return false;
      }
      pools := pools[h.cls := pools[h.cls].(liveSeq := pools[h.cls].liveSeq[h.index := 0])];
      pools := pools[h.cls := pools[h.cls].(free := pools[h.cls].free + [h.index])];
      occupancy := (occupancy + (TWO64 - cfg.classes[h.cls].slabSize) % TWO64) % TWO64;
      ghost var was := old(pools)[h.cls];
      assert pools == old(pools)[h.cls := Pool(was.free + [h.index], was.liveSeq[h.index := 0])];
      return true;
    }

    /** The diagnostic check: it accepts exactly the handles Free would. */
    method Validate(h: SlabHandle) returns (ok: bool)
      requires Valid()
      ensures ok == ArenaModel.Free(cfg, View(), h).1
    {
      if h.owner != cfg.id || h.generation != cfg.generation || h.sequence == 0 {
        return false;
      }
      if h.cls >= |pools| || h.index >= cfg.classes[h.cls].slabCount {
        return false;
      }
      return pools[h.cls].liveSeq[h.index] == h.sequence;
    }
  }

  /** A configuration is refused when the table is empty, a class has no slab, or mem is
      too short for some class; otherwise every slab starts free, under a new identity. */
  method New(classes: seq<SizeClass>, memLen: nat, generation: nat, counter: nat)
      returns (arena: Slabs?, next: nat)
    requires counter < TWO64
    ensures arena != null <==>
      |classes| > 0 && forall c :: 0 <= c < |classes| ==> classes[c].slabCount > 0 && Extent(classes[c]) <= memLen
    ensures arena != null ==>
      fresh(arena) && arena.cfg == Config(classes, memLen, generation, next) && arena.View() == Start(arena.cfg)
      && arena.Valid() && next == NextSequence(counter)
    ensures arena != null && Contiguous(classes) ==> Inv(arena.cfg, World(arena.View(), 0, {}, {}))
    ensures arena == null ==> next == counter
  {
    next := counter;
    if |classes| == 0 {
      return null, counter;
    }
    for i := 0 to |classes|
      invariant forall c :: 0 <= c < i ==> classes[c].slabCount > 0
    {
      if classes[i].slabCount == 0 {
        return null, counter;
      }
    }
    var required := MaxSlabExtent(classes);
    if memLen < required {
      return null, counter;
    }
    var pools: seq<Pool> := [];
    for i := 0 to |classes|
      invariant |pools| == i && forall c :: 0 <= c < i ==> pools[c] == FreshPool(classes[c], c)
    {
      var pool := NewClassState(classes[i], i == 0);
      pools := pools + [pool];
    }
    var id;
    id, next := MintArenaID(counter);
    var cfg := Config(classes, memLen, generation, id);
    assert pools == Start(cfg).pools;
    arena := new Slabs(cfg, pools);
    if Contiguous(classes) {
      StartInv(cfg);
    }
  }
}
