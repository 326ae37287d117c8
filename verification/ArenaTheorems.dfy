/** What every run of Alloc and Free keeps, and when each of them succeeds. */
module ArenaTheorems {
  import opened Common
  import opened ArenaModel

  // ---------------------------------------------------------------- free lists

  function Popped(pool: Pool, seqNo: nat): Pool
    requires pool.free != [] && pool.free[|pool.free| - 1] < |pool.liveSeq|
  {
    Pool(pool.free[..|pool.free| - 1], pool.liveSeq[pool.free[|pool.free| - 1] := seqNo])
  }

  lemma StillStacked(free: seq<nat>, i: nat)
    requires free != [] && i in free && i != free[|free| - 1]
    ensures i in free[..|free| - 1]
  {
    assert free == free[..|free| - 1] + [free[|free| - 1]];
  }

  lemma PopKeepsSplit(pool: Pool, count: nat, first: nat, seqNo: nat)
    requires Split(pool, count, first) && pool.free != [] && seqNo != 0
    ensures Split(Popped(pool, seqNo), count, first)
  {
    var after := Popped(pool, seqNo);
    forall i | first <= i < count && after.liveSeq[i] == 0
      ensures i in after.free
    {
      StillStacked(pool.free, i);
    }
  }

  lemma PushKeepsSplit(pool: Pool, count: nat, first: nat, idx: nat)
    requires Split(pool, count, first) && idx < count && pool.liveSeq[idx] != 0
    ensures Split(Pool(pool.free + [idx], pool.liveSeq[idx := 0]), count, first)
  {
    var after := Pool(pool.free + [idx], pool.liveSeq[idx := 0]);
    assert forall k :: 0 <= k < |pool.free| ==> after.free[k] == pool.free[k];
    assert after.free[|pool.free|] == idx;
    forall i | first <= i < count && after.liveSeq[i] == 0
      ensures i in after.free
    {
      assert i == idx || i in pool.free;
    }
  }

  lemma SlabsAreShaped(cfg: Config, s: State)
    requires SlabInv(cfg, s)
    ensures Shaped(cfg, s)
  {
    forall c, k | 0 <= c < |cfg.classes| && 0 <= k < |s.pools[c].free|
      ensures s.pools[c].free[k] < cfg.classes[c].slabCount
    {
      assert Split(s.pools[c], cfg.classes[c].slabCount, FirstIndex(c));
    }
  }

  // ---------------------------------------------------------------- occupancy

  function One(v: nat): int {
    if v != 0 then 1 else 0
  }

  lemma {:induction false} CountAfterUpdate(liveSeq: seq<nat>, i: nat, v: nat)
    requires i < |liveSeq|
    ensures LiveCount(liveSeq[i := v]) == LiveCount(liveSeq) + One(v) - One(liveSeq[i])
  {
    var last := |liveSeq| - 1;
    if i == last {
      assert liveSeq[i := v][..last] == liveSeq[..last];
    } else {
      assert liveSeq[i := v][..last] == liveSeq[..last][i := v];
      CountAfterUpdate(liveSeq[..last], i, v);
    }
  }

  lemma ClassBytesAfterUpdate(k: SizeClass, pool: Pool, free: seq<nat>, i: nat, v: nat)
    requires i < |pool.liveSeq| && (v == 0 <==> pool.liveSeq[i] != 0)
    ensures ClassBytes(k, Pool(free, pool.liveSeq[i := v])) ==
            ClassBytes(k, pool) + (if v != 0 then 1 else -1) * k.slabSize
  {
    CountAfterUpdate(pool.liveSeq, i, v);
    var n := LiveCount(pool.liveSeq);
    assert (n + 1) * k.slabSize == n * k.slabSize + k.slabSize;
    assert (n - 1) * k.slabSize == n * k.slabSize - k.slabSize;
  }

  lemma {:induction false} BytesAfterUpdate(classes: seq<SizeClass>, pools: seq<Pool>, c: nat, p: Pool, n: nat)
    requires n <= |classes| && |pools| == |classes| && c < |classes|
    ensures LiveBytes(classes, pools[c := p], n) == LiveBytes(classes, pools, n) +
            if c < n then ClassBytes(classes[c], p) - ClassBytes(classes[c], pools[c]) else 0
  {
    if n > 0 {
      BytesAfterUpdate(classes, pools, c, p, n - 1);
    }
  }

  lemma {:induction false} BytesFit(cfg: Config, s: State, n: nat)
    requires Sound(cfg) && SlabInv(cfg, s) && n <= |cfg.classes|
    ensures n > 0 ==> LiveBytes(cfg.classes, s.pools, n) <= Extent(cfg.classes[n - 1])
  {
    if n > 0 {
      BytesFit(cfg, s, n - 1);
      var k := cfg.classes[n - 1];
      assert Split(s.pools[n - 1], k.slabCount, FirstIndex(n - 1));
      CountTimesSize(LiveCount(s.pools[n - 1].liveSeq), k.slabCount, k.slabSize);
    }
  }

  lemma CountTimesSize(live: nat, count: nat, size: nat)
    requires live <= count
    ensures live * size <= size * count
  {
    if live < count {
      NextMultiple(live, count, size);
    }
    assert size * count == count * size;
  }

  // ---------------------------------------------------------------- one operation

  lemma AllocKeepsSlabs(cfg: Config, s: State, size: nat)
    requires Sound(cfg) && SlabInv(cfg, s) && Shaped(cfg, s)
    ensures SlabInv(cfg, Alloc(cfg, s, size).0)
  {
    var (t, r) := Alloc(cfg, s, size);
    if r.Allocated? {
      var c := r.handle.cls;
      assert Split(s.pools[c], cfg.classes[c].slabCount, FirstIndex(c));
      PopKeepsSplit(s.pools[c], cfg.classes[c].slabCount, FirstIndex(c), s.nextSeq);
      assert t.pools == s.pools[c := Popped(s.pools[c], s.nextSeq)];
    }
  }

  lemma FreeKeepsSlabs(cfg: Config, s: State, h: SlabHandle)
    requires Sound(cfg) && SlabInv(cfg, s) && Shaped(cfg, s)
    ensures SlabInv(cfg, Free(cfg, s, h).0)
  {
    if Free(cfg, s, h).1 {
      assert Split(s.pools[h.cls], cfg.classes[h.cls].slabCount, FirstIndex(h.cls));
      PushKeepsSplit(s.pools[h.cls], cfg.classes[h.cls].slabCount, FirstIndex(h.cls), h.index);
    }
  }

  /** What a successful Alloc hands out. */
  lemma AllocMints(cfg: Config, s: State, size: nat)
    requires Sound(cfg) && SlabInv(cfg, s) && Shaped(cfg, s) && Alloc(cfg, s, size).1.Allocated?
    ensures var (t, r) := Alloc(cfg, s, size); var h := r.handle;
      && Ours(cfg, h) && IsSlab(cfg, h.cls, h.index) && h.sequence == s.nextSeq
      && h.offset == Lo(cfg, h.cls, h.index) == r.lo && r.hi == Hi(cfg, h.cls, h.index)
      && Serves(cfg.classes, h.cls, size) && h.length == size > 0
      && s.pools[h.cls].liveSeq[h.index] == 0
      && t.pools == s.pools[h.cls := Pool(t.pools[h.cls].free, s.pools[h.cls].liveSeq[h.index := s.nextSeq])]
      && t.nextSeq == NextSequence(s.nextSeq)
  {
    var h := Alloc(cfg, s, size).1.handle;
    assert Split(s.pools[h.cls], cfg.classes[h.cls].slabCount, FirstIndex(h.cls));
    SlabInside(cfg, h.cls, h.index);
  }

  lemma BytesBelowTwo32(cfg: Config, s: State)
    requires Sound(cfg) && SlabInv(cfg, s)
    ensures LiveBytes(cfg.classes, s.pools, |cfg.classes|) < TWO32
  {
    BytesFit(cfg, s, |cfg.classes|);
  }

  /** Stamping one slab that was not live adds its bytes; clearing a live one removes them. */
  lemma BytesAfterStamp(cfg: Config, s: State, t: State, c: nat, i: nat, v: nat)
    requires |s.pools| == |t.pools| == |cfg.classes| && c < |cfg.classes| && i < |s.pools[c].liveSeq|
    requires t.pools == s.pools[c := Pool(t.pools[c].free, s.pools[c].liveSeq[i := v])]
    requires v == 0 <==> s.pools[c].liveSeq[i] != 0
    ensures LiveBytes(cfg.classes, t.pools, |cfg.classes|) ==
            LiveBytes(cfg.classes, s.pools, |cfg.classes|) + (if v != 0 then 1 else -1) * cfg.classes[c].slabSize
  {
    ClassBytesAfterUpdate(cfg.classes[c], s.pools[c], t.pools[c].free, i, v);
    BytesAfterUpdate(cfg.classes, s.pools, c, t.pools[c], |cfg.classes|);
  }

  lemma AllocKeepsOccupancy(cfg: Config, s: State, size: nat)
    requires Sound(cfg) && SlabInv(cfg, s) && Shaped(cfg, s) && OccupancyInv(cfg, s)
    ensures OccupancyInv(cfg, Alloc(cfg, s, size).0)
  {
    var (t, r) := Alloc(cfg, s, size);
    if r.Allocated? {
      AllocMints(cfg, s, size);
      BytesAfterStamp(cfg, s, t, r.handle.cls, r.handle.index, s.nextSeq);
      AllocKeepsSlabs(cfg, s, size);
      BytesBelowTwo32(cfg, t);
      WrappedAddition(s.occupancy, cfg.classes[r.handle.cls].slabSize);
    }
  }

  lemma FreeKeepsOccupancy(cfg: Config, s: State, h: SlabHandle)
    requires Sound(cfg) && SlabInv(cfg, s) && Shaped(cfg, s) && OccupancyInv(cfg, s)
    ensures OccupancyInv(cfg, Free(cfg, s, h).0)
  {
    var (t, ok) := Free(cfg, s, h);
    if ok {
      BytesAfterStamp(cfg, s, t, h.cls, h.index, 0);
      BytesBelowTwo32(cfg, s);
      OneSlabFits(cfg, h.cls);
      WrappedSubtraction(s.occupancy, cfg.classes[h.cls].slabSize);
    }
  }

  lemma WrappedAddition(a: nat, b: nat)
    requires a + b < TWO64
    ensures (a + b) % TWO64 == a + b
  {
  }

  /** Adding the two's complement of a smaller number subtracts it. */
  lemma WrappedSubtraction(a: nat, b: nat)
    requires 0 < b <= a < TWO64
    ensures (a + (TWO64 - b) % TWO64) % TWO64 == a - b
  {
  }

  lemma OneSlabFits(cfg: Config, c: nat)
    requires Sound(cfg) && c < |cfg.classes|
    ensures cfg.classes[c].slabSize < TWO32
  {
    CountTimesSize(1, cfg.classes[c].slabCount, cfg.classes[c].slabSize);
  }

  /** Where a slab's stamp changes, only handles naming that slab can notice. */
  lemma StampChangesOneSlab(cfg: Config, s: State, t: State, c: nat, free: seq<nat>, i: nat, v: nat, g: SlabHandle)
    requires Shaped(cfg, s) && Shaped(cfg, t) && c < |cfg.classes| && i < cfg.classes[c].slabCount
    requires t.pools == s.pools[c := Pool(free, s.pools[c].liveSeq[i := v])]
    ensures g.cls == c && g.index == i ==> (LiveAs(cfg, t, g) <==> g.sequence == v)
    ensures g.cls != c || g.index != i ==> (LiveAs(cfg, t, g) <==> LiveAs(cfg, s, g))
  {
  }

  /** A handle minted earlier keeps its standing: the new stamp goes to a slab that was not
      live, under a sequence no earlier handle has. */
  lemma AllocKeepsOldHandle(cfg: Config, w: World, t: State, h: SlabHandle, g: SlabHandle)
    requires Shaped(cfg, w.s) && Shaped(cfg, t)
    requires h.cls < |cfg.classes| && h.index < cfg.classes[h.cls].slabCount && h.sequence == w.allocs + 1
    requires w.s.pools[h.cls].liveSeq[h.index] == 0
    requires t.pools == w.s.pools[h.cls := Pool(t.pools[h.cls].free, w.s.pools[h.cls].liveSeq[h.index := h.sequence])]
    requires Minted(cfg, g, w.allocs)
    ensures Minted(cfg, g, w.allocs + 1)
    ensures LiveAs(cfg, w.s, g) <==> LiveAs(cfg, t, g)
  {
    StampChangesOneSlab(cfg, w.s, t, h.cls, t.pools[h.cls].free, h.index, h.sequence, g);
  }

  lemma AllocKeepsHandles(cfg: Config, w: World, t: State, h: SlabHandle)
    requires Shaped(cfg, w.s) && Shaped(cfg, t) && HandleInv(cfg, w) && w.allocs + 1 < TWO64
    requires Minted(cfg, h, w.allocs + 1) && h.sequence == w.s.nextSeq && t.nextSeq == NextSequence(w.s.nextSeq)
    requires w.s.pools[h.cls].liveSeq[h.index] == 0
    requires t.pools == w.s.pools[h.cls := Pool(t.pools[h.cls].free, w.s.pools[h.cls].liveSeq[h.index := h.sequence])]
    ensures HandleInv(cfg, World(t, w.allocs + 1, w.minted + {h}, w.outstanding + {h}))
  {
    forall g | g in w.minted
      ensures g.sequence != h.sequence && Minted(cfg, g, w.allocs + 1)
      ensures g in w.outstanding <==> LiveAs(cfg, t, g)
    {
      AllocKeepsOldHandle(cfg, w, t, h, g);
    }
    StampChangesOneSlab(cfg, w.s, t, h.cls, t.pools[h.cls].free, h.index, h.sequence, h);
  }

  lemma FreeKeepsHandles(cfg: Config, w: World, h: SlabHandle)
    requires Sound(cfg) && SlabInv(cfg, w.s) && Shaped(cfg, w.s) && HandleInv(cfg, w) && Free(cfg, w.s, h).1
    requires Shaped(cfg, Free(cfg, w.s, h).0)
    ensures HandleInv(cfg, Apply(cfg, w, FreeOp(h)))
  {
    var w' := Apply(cfg, w, FreeOp(h));
    forall g | g in w'.minted
      ensures g in w'.outstanding <==> LiveAs(cfg, w'.s, g)
    {
      StampChangesOneSlab(cfg, w.s, w'.s, h.cls, w'.s.pools[h.cls].free, h.index, 0, g);
    }
  }

  lemma AllocKeepsOwners(cfg: Config, w: World, t: State, h: SlabHandle)
    requires Shaped(cfg, w.s) && Shaped(cfg, t) && OwnerInv(cfg, w)
    requires h.cls < |cfg.classes| && h.index < cfg.classes[h.cls].slabCount
    requires t.pools == w.s.pools[h.cls := Pool(t.pools[h.cls].free, w.s.pools[h.cls].liveSeq[h.index := h.sequence])]
    ensures OwnerInv(cfg, World(t, w.allocs + 1, w.minted + {h}, w.outstanding + {h}))
  {
    forall c, i | 0 <= c < |cfg.classes| && 0 <= i < cfg.classes[c].slabCount && t.pools[c].liveSeq[i] != 0
      ensures Claims(w.outstanding + {h}, c, i, t.pools[c].liveSeq[i])
    {
      if c != h.cls || i != h.index {
        var g :| g in w.outstanding && g.cls == c && g.index == i && g.sequence == t.pools[c].liveSeq[i];
        assert g in w.outstanding + {h};
      } else {
        assert h in w.outstanding + {h};
      }
    }
  }

  lemma FreeKeepsOwners(cfg: Config, w: World, h: SlabHandle)
    requires Shaped(cfg, w.s) && OwnerInv(cfg, w) && Free(cfg, w.s, h).1 && Shaped(cfg, Free(cfg, w.s, h).0)
    ensures OwnerInv(cfg, Apply(cfg, w, FreeOp(h)))
  {
    var w' := Apply(cfg, w, FreeOp(h));
    forall c, i | 0 <= c < |cfg.classes| && 0 <= i < cfg.classes[c].slabCount && w'.s.pools[c].liveSeq[i] != 0
      ensures Claims(w'.outstanding, c, i, w'.s.pools[c].liveSeq[i])
    {
      var g :| g in w.outstanding && g.cls == c && g.index == i && g.sequence == w.s.pools[c].liveSeq[i];
      assert g in w'.outstanding;
    }
  }

  lemma AllocKeepsInv(cfg: Config, w: World, size: nat)
    requires Sound(cfg) && Inv(cfg, w)
    ensures Inv(cfg, Apply(cfg, w, AllocOp(size)))
  {
    var (t, r) := Alloc(cfg, w.s, size);
    if r.Allocated? {
      AllocKeepsSlabs(cfg, w.s, size);
      SlabsAreShaped(cfg, t);
      AllocKeepsOccupancy(cfg, w.s, size);
      if w.allocs + 1 < TWO64 {
        AllocMints(cfg, w.s, size);
        AllocKeepsHandles(cfg, w, t, r.handle);
        AllocKeepsOwners(cfg, w, t, r.handle);
      }
    }
  }

  lemma FreeKeepsInv(cfg: Config, w: World, h: SlabHandle)
    requires Sound(cfg) && Inv(cfg, w)
    ensures Inv(cfg, Apply(cfg, w, FreeOp(h)))
  {
    if Free(cfg, w.s, h).1 {
      FreeKeepsSlabs(cfg, w.s, h);
      SlabsAreShaped(cfg, Free(cfg, w.s, h).0);
      FreeKeepsOccupancy(cfg, w.s, h);
      if w.allocs < TWO64 {
        FreeKeepsHandles(cfg, w, h);
        FreeKeepsOwners(cfg, w, h);
      }
    }
  }

  // ---------------------------------------------------------------- runs

  lemma FreshPoolIsSplit(k: SizeClass, c: nat)
    ensures Split(FreshPool(k, c), k.slabCount, FirstIndex(c)) && LiveCount(FreshPool(k, c).liveSeq) == 0
  {
    var pool := FreshPool(k, c);
    NothingLive(pool.liveSeq);
    forall i | FirstIndex(c) <= i < k.slabCount
      ensures i in pool.free
    {
      assert pool.free[k.slabCount - 1 - i] == i;
    }
  }

  lemma {:induction false} NothingLive(liveSeq: seq<nat>)
    requires forall i :: 0 <= i < |liveSeq| ==> liveSeq[i] == 0
    ensures LiveCount(liveSeq) == 0
  {
    if liveSeq != [] {
      NothingLive(liveSeq[..|liveSeq| - 1]);
    }
  }

  lemma {:induction false} FreshBytes(cfg: Config, n: nat)
    requires n <= |cfg.classes|
    ensures LiveBytes(cfg.classes, Start(cfg).pools, n) == 0
  {
    if n > 0 {
      FreshBytes(cfg, n - 1);
      FreshPoolIsSplit(cfg.classes[n - 1], n - 1);
    }
  }

  lemma StartInv(cfg: Config)
    requires Sound(cfg)
    ensures Inv(cfg, World(Start(cfg), 0, {}, {}))
  {
    forall c | 0 <= c < |cfg.classes|
      ensures Split(Start(cfg).pools[c], cfg.classes[c].slabCount, FirstIndex(c))
    {
      FreshPoolIsSplit(cfg.classes[c], c);
    }
    FreshBytes(cfg, |cfg.classes|);
    SlabsAreShaped(cfg, Start(cfg));
  }

  lemma {:induction false} Reachable(cfg: Config, run: seq<World>, i: nat)
    requires Sound(cfg) && IsRun(cfg, run) && i < |run|
    ensures Inv(cfg, run[i])
  {
    if i == 0 {
      StartInv(cfg);
    } else {
      Reachable(cfg, run, i - 1);
      assert Step(cfg, run[i - 1], run[i]);
      var op :| run[i] == Apply(cfg, run[i - 1], op);
      match op
      case AllocOp(size) => AllocKeepsInv(cfg, run[i - 1], size);
      case FreeOp(h) => FreeKeepsInv(cfg, run[i - 1], h);
    }
  }

  // ---------------------------------------------------------------- theorems

  predicate Live(cfg: Config, s: State, c: nat, i: nat)
    requires Shaped(cfg, s)
  {
    c < |cfg.classes| && i < cfg.classes[c].slabCount && s.pools[c].liveSeq[i] != 0
  }

  /** After any sequence of Alloc and Free every class's usable slabs are split into its
      duplicate-free free list and its live slabs, and the occupancy is the live bytes. */
  lemma FreeListsAndLiveSlabsPartition(cfg: Config, run: seq<World>, n: nat, c: nat, i: nat)
    requires Sound(cfg) && IsRun(cfg, run) && n < |run| && c < |cfg.classes| && i < cfg.classes[c].slabCount
    ensures var s := run[n].s;
      && Shaped(cfg, s)
      && (i in s.pools[c].free <==> !Live(cfg, s, c, i) && IsSlab(cfg, c, i))
      && (Live(cfg, s, c, i) ==> IsSlab(cfg, c, i))
      && multiset(s.pools[c].free)[i] <= 1
      && s.occupancy == LiveBytes(cfg.classes, s.pools, |cfg.classes|)
  {
    Reachable(cfg, run, n);
    var pool := run[n].s.pools[c];
    assert Split(pool, cfg.classes[c].slabCount, FirstIndex(c));
    DistinctOccursOnce(pool.free, i);
  }

  lemma {:induction false} DistinctOccursOnce(xs: seq<nat>, x: nat)
    requires forall i, j :: 0 <= i < j < |xs| ==> xs[i] != xs[j]
    ensures multiset(xs)[x] <= 1
  {
    if xs != [] {
      var last := |xs| - 1;
      DistinctOccursOnce(xs[..last], x);
      assert xs == xs[..last] + [xs[last]];
      assert multiset(xs[..last])[x] > 0 ==> x in xs[..last];
    }
  }

  /** Live slabs never share a byte, lie inside mem, and none starts at offset 0. */
  lemma LiveSlabsAreSeparate(cfg: Config, run: seq<World>, n: nat, c: nat, i: nat, d: nat, j: nat)
    requires Sound(cfg) && IsRun(cfg, run) && n < |run| && Shaped(cfg, run[n].s)
    requires Live(cfg, run[n].s, c, i) && Live(cfg, run[n].s, d, j)
    ensures 0 < Lo(cfg, c, i) < Hi(cfg, c, i) <= cfg.memLen
    ensures (c, i) == (d, j) || Hi(cfg, c, i) <= Lo(cfg, d, j) || Hi(cfg, d, j) <= Lo(cfg, c, i)
  {
    FreeListsAndLiveSlabsPartition(cfg, run, n, c, i);
    FreeListsAndLiveSlabsPartition(cfg, run, n, d, j);
    SlabInside(cfg, c, i);
    if (c, i) != (d, j) {
      SlabsDisjoint(cfg, c, i, d, j);
    }
  }

  /** Free succeeds exactly on a handle that makes the same claim as one this arena minted
      and has not taken back since, whatever the caller passes; a refused Free leaves the
      arena as it was. */
  lemma FreeSucceedsExactlyOnOutstandingHandles(cfg: Config, run: seq<World>, n: nat, h: SlabHandle)
    requires Sound(cfg) && IsRun(cfg, run) && n < |run| && run[n].allocs < TWO64 && Shaped(cfg, run[n].s)
    ensures Free(cfg, run[n].s, h).1 <==> exists g :: g in run[n].outstanding && SameClaim(g, h)
    ensures h in run[n].minted ==> (Free(cfg, run[n].s, h).1 <==> h in run[n].outstanding)
    ensures !Free(cfg, run[n].s, h).1 ==> Free(cfg, run[n].s, h).0 == run[n].s
  {
    Reachable(cfg, run, n);
    var w := run[n];
    if g :| g in w.outstanding && SameClaim(g, h) {
      assert LiveAs(cfg, w.s, g);
    }
    if Free(cfg, w.s, h).1 {
      var live := w.s.pools[h.cls].liveSeq[h.index];
      assert Claims(w.outstanding, h.cls, h.index, live);
      var g :| g in w.outstanding && g.cls == h.cls && g.index == h.index && g.sequence == live;
      assert SameClaim(g, h);
    }
  }

  predicate Gone(w: World, h: SlabHandle) {
    h.sequence <= w.allocs && forall g :: g in w.outstanding ==> !SameClaim(g, h)
  }

  /** No step brings back a claim whose sequence was already handed out. */
  lemma StepRevivesNothing(cfg: Config, w: World, op: Op, h: SlabHandle)
    requires Sound(cfg) && Inv(cfg, w) && Apply(cfg, w, op).allocs < TWO64 && Gone(w, h)
    ensures Gone(Apply(cfg, w, op), h)
  {
    if op.AllocOp? && Alloc(cfg, w.s, op.size).1.Allocated? {
      AllocMints(cfg, w.s, op.size);
    }
  }

  lemma FreeEndsTheClaim(cfg: Config, w: World, h: SlabHandle)
    requires Inv(cfg, w) && w.allocs < TWO64 && Free(cfg, w.s, h).1
    ensures Gone(Apply(cfg, w, FreeOp(h)), h)
  {
    var live := w.s.pools[h.cls].liveSeq[h.index];
    assert Claims(w.outstanding, h.cls, h.index, live);
    var g :| g in w.outstanding && g.cls == h.cls && g.index == h.index && g.sequence == live;
    assert Minted(cfg, g, w.allocs);
  }

  /** Step m of the run is a successful Free of h. */
  predicate FreedAt(cfg: Config, run: seq<World>, m: nat, h: SlabHandle) {
    && m + 1 < |run| && Shaped(cfg, run[m].s)
    && Free(cfg, run[m].s, h).1 && run[m + 1] == Apply(cfg, run[m], FreeOp(h))
  }

  lemma AllocsNeverFall(cfg: Config, run: seq<World>, n: nat)
    requires IsRun(cfg, run) && n + 1 < |run|
    ensures run[n].allocs <= run[n + 1].allocs
  {
    assert Step(cfg, run[n], run[n + 1]);
  }

  lemma GoneStaysGone(cfg: Config, run: seq<World>, n: nat, h: SlabHandle)
    requires Sound(cfg) && IsRun(cfg, run) && n + 1 < |run| && run[n + 1].allocs < TWO64 && Gone(run[n], h)
    ensures Gone(run[n + 1], h)
  {
    Reachable(cfg, run, n);
    assert Step(cfg, run[n], run[n + 1]);
    var op :| run[n + 1] == Apply(cfg, run[n], op);
    StepRevivesNothing(cfg, run[n], op, h);
  }

  lemma GoneAfterFree(cfg: Config, run: seq<World>, m: nat, h: SlabHandle)
    requires Sound(cfg) && IsRun(cfg, run) && FreedAt(cfg, run, m, h) && run[m].allocs < TWO64
    ensures Gone(run[m + 1], h)
  {
    Reachable(cfg, run, m);
    FreeEndsTheClaim(cfg, run[m], h);
  }

  predicate Carries(run: seq<World>, i: nat, h: SlabHandle) {
    i + 1 < |run| && (Gone(run[i], h) ==> Gone(run[i + 1], h))
  }

  lemma {:induction false} GoneForGood(run: seq<World>, m: nat, n: nat, h: SlabHandle)
    requires m <= n < |run| && Gone(run[m], h) && forall i :: m <= i < n ==> Carries(run, i, h)
    ensures Gone(run[n], h)
  {
    if m < n {
      GoneForGood(run, m, n - 1, h);
      assert Carries(run, n - 1, h);
    }
  }

  lemma {:induction false} AllocsAscend(cfg: Config, run: seq<World>, m: nat, n: nat)
    requires IsRun(cfg, run) && m <= n < |run|
    ensures run[m].allocs <= run[n].allocs
  {
    if m < n {
      AllocsAscend(cfg, run, m, n - 1);
      AllocsNeverFall(cfg, run, n - 1);
    }
  }

  /** A handle once freed never frees again, however often its slab is handed out since. */
  lemma NoDoubleFree(cfg: Config, run: seq<World>, m: nat, n: nat, h: SlabHandle)
    requires Sound(cfg) && IsRun(cfg, run) && FreedAt(cfg, run, m, h) && m < n < |run| && run[n].allocs < TWO64
    ensures Shaped(cfg, run[n].s) && !Free(cfg, run[n].s, h).1
  {
    AllocsAscend(cfg, run, m, n);
    GoneAfterFree(cfg, run, m, h);
    forall i | m + 1 <= i < n
      ensures Carries(run, i, h)
    {
      AllocsAscend(cfg, run, i + 1, n);
      if Gone(run[i], h) {
        GoneStaysGone(cfg, run, i, h);
      }
    }
    GoneForGood(run, m + 1, n, h);
    Reachable(cfg, run, n);
    FreeSucceedsExactlyOnOutstandingHandles(cfg, run, n, h);
  }

  /** Every usable slab of class c is live. */
  predicate Full(cfg: Config, s: State, c: nat)
    requires Shaped(cfg, s) && c < |cfg.classes|
  {
    forall i :: FirstIndex(c) <= i < cfg.classes[c].slabCount ==> s.pools[c].liveSeq[i] != 0
  }

  /** Alloc refuses zero, refuses a size no class holds, and reports exhausted exactly when
      the smallest fitting class has no slab left; a refusal changes nothing. */
  lemma AllocRefusesExactly(cfg: Config, run: seq<World>, n: nat, size: nat)
    requires Sound(cfg) && IsRun(cfg, run) && n < |run| && Shaped(cfg, run[n].s)
    ensures var s := run[n].s; var (t, r) := Alloc(cfg, s, size);
      && (r == ZeroLength <==> size == 0)
      && (r == TooLarge <==> size > 0 && forall c :: 0 <= c < |cfg.classes| ==> cfg.classes[c].slabSize < size)
      && (forall c: nat :: Serves(cfg.classes, c, size) && size > 0 ==> (r == Exhausted <==> Full(cfg, s, c)))
      && (!r.Allocated? ==> t == s)
  {
    Reachable(cfg, run, n);
    var s := run[n].s;
    var r := Alloc(cfg, s, size).1;
    forall c: nat | Serves(cfg.classes, c, size) && size > 0
      ensures r == Exhausted <==> Full(cfg, s, c)
    {
      ServingClassIsUnique(cfg.classes, c, FirstFit(cfg.classes, size).value, size);
      assert Split(s.pools[c], cfg.classes[c].slabCount, FirstIndex(c));
      if s.pools[c].free != [] {
        assert s.pools[c].liveSeq[s.pools[c].free[0]] == 0;
      }
    }
  }

  /** A granted Alloc hands out one slab of the smallest fitting class that was not live,
      all of its bytes, under a handle that the arena then accepts. */
  lemma AllocGrantsAFreshSlab(cfg: Config, run: seq<World>, n: nat, size: nat)
    requires Sound(cfg) && IsRun(cfg, run) && n < |run| && Shaped(cfg, run[n].s)
    requires Alloc(cfg, run[n].s, size).1.Allocated?
    ensures var s := run[n].s; var (t, r) := Alloc(cfg, s, size);
      && Serves(cfg.classes, r.handle.cls, size) && r.handle.length == size
      && IsSlab(cfg, r.handle.cls, r.handle.index) && !Live(cfg, s, r.handle.cls, r.handle.index)
      && r.handle.offset == r.lo == Lo(cfg, r.handle.cls, r.handle.index)
      && r.hi == Hi(cfg, r.handle.cls, r.handle.index) && size <= r.hi - r.lo
      && Shaped(cfg, t) && Free(cfg, t, r.handle).1
  {
    Reachable(cfg, run, n);
    AllocMints(cfg, run[n].s, size);
    AllocKeepsSlabs(cfg, run[n].s, size);
    SlabsAreShaped(cfg, Alloc(cfg, run[n].s, size).0);
  }

  /** The identity the k-th New of the process gets. */
  function Identity(k: nat): nat {
    if k == 0 then 0 else NextSequence(Identity(k - 1))
  }

  /** Distinct arenas have distinct, non-zero identities. */
  lemma {:induction false} IdentitiesDiffer(j: nat, k: nat)
    requires 0 < j < k < TWO64
    ensures 0 < Identity(j) && Identity(j) != Identity(k)
  {
    IdentityCounts(j);
    IdentityCounts(k);
  }

  lemma {:induction false} IdentityCounts(k: nat)
    requires k < TWO64
    ensures Identity(k) == k
  {
    if k > 0 {
      IdentityCounts(k - 1);
    }
  }

  /** A handle minted by one arena is refused by every other arena of the process, even a
      twin with equal geometry and generation in which the same slab is live under the
      same sequence. */
  lemma TwinHandlesAreRefused(cfg: Config, twin: Config, run: seq<World>, m: nat,
                              s: State, h: SlabHandle, j: nat, k: nat)
    requires Sound(twin) && IsRun(twin, run) && m < |run| && run[m].allocs < TWO64 && h in run[m].minted
    requires 0 < j < TWO64 && 0 < k < TWO64 && j != k && cfg.id == Identity(j) && twin.id == Identity(k)
    requires Shaped(cfg, s)
    ensures Free(cfg, s, h) == (s, false)
  {
    Reachable(twin, run, m);
    assert Minted(twin, h, run[m].allocs);
    IdentitiesDiffer(if j < k then j else k, if j < k then k else j);
  }
}
