/**
 Physical segments (blk-merge.c): which neighbouring bio_vecs the hardware may
 take as one, how many segments a list of bio_vecs needs, and the scatterlist
 built from it.
 */
module Segments {

  const PAGE_SIZE: nat := 4096

  /** struct bio_vec */
  datatype Vec = Vec(page: nat, offset: nat, len: nat)

  function Phys(v: Vec): nat { v.page * PAGE_SIZE + v.offset }

  /** The limits of a request queue that segments and merges depend on.  `window`
      numbers the windows the segment boundary mask divides memory into. */
  datatype Limits = Limits(cluster: bool, maxSegmentSize: nat, window: int -> int, bouncePfn: nat,
                           maxSectors: nat, maxPhysSegments: nat, maxHwSegments: nat)

  /** BIOVEC_PHYS_MERGEABLE and BIOVEC_SEG_BOUNDARY on a clustering queue. */
  predicate Joinable(q: Limits, a: Vec, b: Vec) {
    && q.cluster
    && Phys(a) + a.len == Phys(b)
    && q.window(Phys(a)) == q.window(Phys(b) + b.len - 1)
  }

  function Total(vs: seq<Vec>): nat { if vs == [] then 0 else Total(vs[..|vs| - 1]) + vs[|vs| - 1].len }

  lemma {:induction false} TotalSplit(a: seq<Vec>, b: seq<Vec>)
    ensures Total(a + b) == Total(a) + Total(b)
  {
    if b == [] {
      assert a + b == a;
    } else {
      assert (a + b)[..|a + b| - 1] == a + b[..|b| - 1];
      TotalSplit(a, b[..|b| - 1]);
    }
  }

  lemma TotalOne(v: Vec)
    ensures Total([v]) == v.len
  {
    assert [v][..|[v]| - 1] == [];
  }

  // ----- partitions ---------------------------------------------------------

  /** Each bio_vec can be joined to the one before. */
  ghost predicate AllJoinable(q: Limits, run: seq<Vec>) {
    |run| <= 1 || (AllJoinable(q, run[..|run| - 1]) && Joinable(q, run[|run| - 2], run[|run| - 1]))
  }

  /** A run of bio_vecs that may form one segment. */
  ghost predicate ValidRun(q: Limits, run: seq<Vec>) {
    && |run| > 0
    && AllJoinable(q, run)
    && (|run| > 1 ==> Total(run) <= q.maxSegmentSize)
  }

  ghost predicate AllValid(q: Limits, p: seq<seq<Vec>>) { forall i :: 0 <= i < |p| ==> ValidRun(q, p[i]) }

  function Flat(p: seq<seq<Vec>>): seq<Vec> { if p == [] then [] else Flat(p[..|p| - 1]) + p[|p| - 1] }

  /** A division of `vs` into segments the hardware accepts. */
  ghost predicate Partition(q: Limits, vs: seq<Vec>, p: seq<seq<Vec>>) { AllValid(q, p) && Flat(p) == vs }

  lemma {:induction false} FlatSplit(a: seq<seq<Vec>>, b: seq<seq<Vec>>)
    ensures Flat(a + b) == Flat(a) + Flat(b)
  {
    if b == [] {
      assert a + b == a;
    } else {
      assert (a + b)[..|a + b| - 1] == a + b[..|b| - 1];
      FlatSplit(a, b[..|b| - 1]);
    }
  }

  // ----- the counting loops -------------------------------------------------

  predicate High(q: Limits, v: Vec) { v.page > q.bouncePfn }

  /** Whether the loops put `v` into the segment `run` they are filling.  The
      counting loop also keeps high pages apart. */
  predicate Extends(q: Limits, apart: bool, run: seq<Vec>, v: Vec)
    requires |run| > 0
  {
    var prev := run[|run| - 1];
    && !(apart && (High(q, v) || High(q, prev)))
    && Total(run) + v.len <= q.maxSegmentSize
    && Joinable(q, prev, v)
  }

  function Grow(q: Limits, apart: bool, g: seq<seq<Vec>>, v: Vec): seq<seq<Vec>>
    requires forall i :: 0 <= i < |g| ==> |g[i]| > 0
  {
    if g != [] && Extends(q, apart, g[|g| - 1], v) then g[..|g| - 1] + [g[|g| - 1] + [v]] else g + [[v]]
  }

  /** The segments the loops find. */
  function Greedy(q: Limits, apart: bool, vs: seq<Vec>): (g: seq<seq<Vec>>)
    ensures forall i :: 0 <= i < |g| ==> |g[i]| > 0
    ensures (g == []) == (vs == [])
  {
    if vs == [] then [] else Grow(q, apart, Greedy(q, apart, vs[..|vs| - 1]), vs[|vs| - 1])
  }

  lemma FlatLast(p: seq<seq<Vec>>, run: seq<Vec>)
    ensures Flat(p + [run]) == Flat(p) + run
  {
    assert (p + [run])[..|p|] == p;
  }

  lemma GrowValid(q: Limits, apart: bool, g: seq<seq<Vec>>, v: Vec)
    requires AllValid(q, g)
    ensures Partition(q, Flat(g) + [v], Grow(q, apart, g, v))
  {
    if g != [] && Extends(q, apart, g[|g| - 1], v) {
      var front, last := g[..|g| - 1], g[|g| - 1];
      assert g == front + [last];
      FlatLast(front, last);
      FlatLast(front, last + [v]);
      assert Flat(front) + (last + [v]) == Flat(front) + last + [v];
      TotalSplit(last, [v]);
      TotalOne(v);
      assert (last + [v])[..|last|] == last;
      assert ValidRun(q, last + [v]);
    } else {
      FlatLast(g, [v]);
      assert ValidRun(q, [v]);
    }
  }

  lemma {:induction false} GreedyValid(q: Limits, apart: bool, vs: seq<Vec>)
    ensures Partition(q, vs, Greedy(q, apart, vs))
  {
    if vs != [] {
      var n := |vs| - 1;
      GreedyValid(q, apart, vs[..n]);
      GrowValid(q, apart, Greedy(q, apart, vs[..n]), vs[n]);
      assert vs == vs[..n] + [vs[n]];
    }
  }

  // ----- the greedy partition is minimal ------------------------------------

  /** Taking the last bio_vec off a partition. */
  function Chop(p: seq<seq<Vec>>): seq<seq<Vec>>
    requires p != [] && p[|p| - 1] != []
  {
    var front, last := p[..|p| - 1], p[|p| - 1];
    if |last| == 1 then front else front + [last[..|last| - 1]]
  }

  lemma ChopValid(q: Limits, vs: seq<Vec>, p: seq<seq<Vec>>)
    requires Partition(q, vs, p) && vs != []
    ensures p != [] && p[|p| - 1] != [] && Partition(q, vs[..|vs| - 1], Chop(p))
  {
    var front, last := p[..|p| - 1], p[|p| - 1];
    assert ValidRun(q, last);
    assert vs == Flat(front) + last;
    if |last| > 1 {
      var less := last[..|last| - 1];
      FlatLast(front, less);
      assert vs[..|vs| - 1] == Flat(front) + less;
      TotalSplit(less, [last[|last| - 1]]);
      assert last == less + [last[|last| - 1]];
      assert ValidRun(q, less);
    } else {
      assert vs[..|vs| - 1] == Flat(front);
    }
  }

  /** No partition beats the greedy one; one as short has a last run no shorter. */
  ghost predicate AsGood(g: seq<seq<Vec>>, p: seq<seq<Vec>>)
  {
    && |g| <= |p|
    && (|g| == |p| > 0 ==> |g[|g| - 1]| <= |p[|p| - 1]|)
  }

  lemma SuffixTotal(vs: seq<Vec>, a: seq<seq<Vec>>, b: seq<seq<Vec>>)
    requires a != [] && b != [] && Flat(a) == Flat(b) == vs && 0 < |a[|a| - 1]| <= |b[|b| - 1]|
    ensures var x, y := a[|a| - 1], b[|b| - 1]; Total(x) <= Total(y) && x[|x| - 1] == y[|y| - 1]
  {
    var x, y := a[|a| - 1], b[|b| - 1];
    assert vs[|vs| - |x|..] == x && vs[|vs| - |y|..] == y;
    var k := |y| - |x|;
    assert y == y[..k] + x;
    TotalSplit(y[..k], x);
  }

  lemma GrowAsGood(q: Limits, vs: seq<Vec>, v: Vec, g: seq<seq<Vec>>, p: seq<seq<Vec>>)
    requires Partition(q, vs, g) && Partition(q, vs + [v], p) && p != [] && p[|p| - 1] != []
    requires Partition(q, vs, Chop(p)) && AsGood(g, Chop(p))
    ensures AsGood(Grow(q, false, g, v), p)
  {
    var last := p[|p| - 1];
    assert ValidRun(q, last);
    if |last| > 1 && |g| == |p| {
      var less := last[..|last| - 1];
      SuffixTotal(vs, g, Chop(p));
      assert last == less + [v] by {
        assert vs + [v] == Flat(p[..|p| - 1]) + last;
        assert (vs + [v])[|vs|] == last[|last| - 1];
      }
      TotalSplit(less, [v]);
      assert Joinable(q, last[|last| - 2], last[|last| - 1]);
      assert Extends(q, false, g[|g| - 1], v);
    }
  }

  /** The scatterlist is as short as any partition of the same bio_vecs. */
  lemma {:induction false} GreedyMinimal(q: Limits, vs: seq<Vec>, p: seq<seq<Vec>>)
    requires Partition(q, vs, p)
    ensures AsGood(Greedy(q, false, vs), p)
  {
    if vs != [] {
      var n := |vs| - 1;
      ChopValid(q, vs, p);
      GreedyMinimal(q, vs[..n], Chop(p));
      GreedyValid(q, false, vs[..n]);
      assert vs == vs[..n] + [vs[n]];
      GrowAsGood(q, vs[..n], vs[n], Greedy(q, false, vs[..n]), p);
    }
  }

  // ----- the scatterlist ----------------------------------------------------

  function Range(addr: nat, n: nat): seq<nat> { seq(n, i requires 0 <= i < n => addr + i) }

  /** The physical bytes of a list of bio_vecs, or of scatterlist entries, in order. */
  function Bytes(vs: seq<Vec>): (r: seq<nat>)
    ensures |r| == Total(vs)
  {
    if vs == [] then [] else Bytes(vs[..|vs| - 1]) + Range(Phys(vs[|vs| - 1]), vs[|vs| - 1].len)
  }

  /** The scatterlist entry of a run: its first page and offset, all its bytes. */
  function Entry(run: seq<Vec>): Vec
    requires |run| > 0
  {
    Vec(run[0].page, run[0].offset, Total(run))
  }

  function Entries(g: seq<seq<Vec>>): (es: seq<Vec>)
    requires forall i :: 0 <= i < |g| ==> |g[i]| > 0
    ensures |es| == |g| && forall i :: 0 <= i < |g| ==> es[i] == Entry(g[i])
  {
    if g == [] then [] else Entries(g[..|g| - 1]) + [Entry(g[|g| - 1])]
  }

  lemma {:induction false} BytesSplit(a: seq<Vec>, b: seq<Vec>)
    ensures Bytes(a + b) == Bytes(a) + Bytes(b)
  {
    if b == [] {
      assert a + b == a;
    } else {
      assert (a + b)[..|a + b| - 1] == a + b[..|b| - 1];
      BytesSplit(a, b[..|b| - 1]);
    }
  }

  lemma BytesLast(a: seq<Vec>, v: Vec)
    ensures Bytes(a + [v]) == Bytes(a) + Range(Phys(v), v.len)
  {
    assert (a + [v])[..|a|] == a;
  }

  lemma {:induction false} RunBytes(q: Limits, run: seq<Vec>)
    requires |run| > 0 && AllJoinable(q, run)
    ensures Bytes(run) == Range(Phys(run[0]), Total(run))
    ensures Phys(run[0]) + Total(run) == Phys(run[|run| - 1]) + run[|run| - 1].len
  {
    var n := |run| - 1;
    if n > 0 {
      RunBytes(q, run[..n]);
      RangeSplit(Phys(run[0]), Total(run[..n]), run[n].len);
    } else {
      assert run[..0] == [];
      assert [] + Range(Phys(run[0]), run[0].len) == Range(Phys(run[0]), run[0].len);
    }
  }

  lemma RangeSplit(addr: nat, m: nat, n: nat)
    ensures Range(addr, m) + Range(addr + m, n) == Range(addr, m + n)
  {
  }

  /** The entries of any valid partition cover exactly its bytes, in order. */
  lemma {:induction false} EntriesCover(q: Limits, g: seq<seq<Vec>>)
    requires AllValid(q, g)
    ensures Bytes(Entries(g)) == Bytes(Flat(g))
  {
    if g != [] {
      var front, run := g[..|g| - 1], g[|g| - 1];
      EntriesCover(q, front);
      assert ValidRun(q, run);
      RunCovers(q, run);
      EntryBytes(g);
      BytesSplit(Flat(front), run);
    }
  }

  lemma RunCovers(q: Limits, run: seq<Vec>)
    requires ValidRun(q, run)
    ensures Bytes(run) == Range(Phys(Entry(run)), Entry(run).len)
  {
    RunBytes(q, run);
  }

  /** The bytes of the last entry come last. */
  lemma EntryBytes(g: seq<seq<Vec>>)
    requires g != [] && forall i :: 0 <= i < |g| ==> |g[i]| > 0
    ensures var front, e := g[..|g| - 1], Entry(g[|g| - 1]);
            Bytes(Entries(g)) == Bytes(Entries(front)) + Range(Phys(e), e.len)
  {
    BytesLast(Entries(g[..|g| - 1]), Entry(g[|g| - 1]));
  }

  // ----- the loops ----------------------------------------------------------

  lemma GreedyStep(q: Limits, apart: bool, vs: seq<Vec>, i: nat)
    requires i < |vs|
    ensures Greedy(q, apart, vs[..i + 1]) == Grow(q, apart, Greedy(q, apart, vs[..i]), vs[i])
  {
    assert vs[..i + 1][..i] == vs[..i];
  }

  /** The last entry is the run being filled, which ends in the bio_vec seen last. */
  lemma {:induction false} GreedyLast(q: Limits, apart: bool, vs: seq<Vec>)
    requires vs != []
    ensures var g := Greedy(q, apart, vs); var run := g[|g| - 1]; run[|run| - 1] == vs[|vs| - 1]
  {
  }

  lemma EntryGrown(run: seq<Vec>, v: Vec)
    requires |run| > 0
    ensures Entry(run + [v]) == Entry(run).(len := Entry(run).len + v.len)
  {
    TotalSplit(run, [v]);
    TotalOne(v);
  }

  /** The test of the loops, on the size of the segment so far. */
  predicate Continues(q: Limits, apart: bool, vs: seq<Vec>, i: nat, segSize: nat)
    requires i < |vs|
  {
    && i > 0 && !(apart && (High(q, vs[i]) || High(q, vs[i - 1])))
    && segSize + vs[i].len <= q.maxSegmentSize && Joinable(q, vs[i - 1], vs[i])
  }

  lemma ContinuesIs(q: Limits, apart: bool, vs: seq<Vec>, i: nat)
    requires 0 < i < |vs|
    ensures var g := Greedy(q, apart, vs[..i]);
            Extends(q, apart, g[|g| - 1], vs[i]) == Continues(q, apart, vs, i, Total(g[|g| - 1]))
  {
    GreedyLast(q, apart, vs[..i]);
  }

  function MapAt(q: Limits, vs: seq<Vec>, i: nat): (sg: seq<Vec>)
    requires i <= |vs|
    ensures (sg == []) == (i == 0)
  {
    Entries(Greedy(q, false, vs[..i]))
  }

  /** The last entry takes in `v`. */
  function Lengthened(sg: seq<Vec>, v: Vec): seq<Vec>
    requires sg != []
  {
    sg[|sg| - 1 := sg[|sg| - 1].(len := sg[|sg| - 1].len + v.len)]
  }

  lemma GrowJoin(q: Limits, g: seq<seq<Vec>>, v: Vec)
    requires g != [] && (forall i :: 0 <= i < |g| ==> |g[i]| > 0) && Extends(q, false, g[|g| - 1], v)
    ensures Entries(Grow(q, false, g, v)) == Lengthened(Entries(g), v)
  {
    EntryGrown(g[|g| - 1], v);
  }

  lemma GrowNew(q: Limits, g: seq<seq<Vec>>, v: Vec)
    requires (forall i :: 0 <= i < |g| ==> |g[i]| > 0) && (g != [] ==> !Extends(q, false, g[|g| - 1], v))
    ensures Entries(Grow(q, false, g, v)) == Entries(g) + [v]
  {
    TotalOne(v);
  }

  lemma MapStepJoin(q: Limits, vs: seq<Vec>, i: nat)
    requires 0 < i < |vs| && var sg := MapAt(q, vs, i); Continues(q, false, vs, i, sg[|sg| - 1].len)
    ensures MapAt(q, vs, i + 1) == Lengthened(MapAt(q, vs, i), vs[i])
  {
    GreedyStep(q, false, vs, i);
    ContinuesIs(q, false, vs, i);
    GrowJoin(q, Greedy(q, false, vs[..i]), vs[i]);
  }

  lemma MapStepNew(q: Limits, vs: seq<Vec>, i: nat)
    requires i < |vs| && (i > 0 ==> var sg := MapAt(q, vs, i); !Continues(q, false, vs, i, sg[|sg| - 1].len))
    ensures MapAt(q, vs, i + 1) == MapAt(q, vs, i) + [vs[i]]
  {
    GreedyStep(q, false, vs, i);
    if i > 0 {
      ContinuesIs(q, false, vs, i);
    }
    GrowNew(q, Greedy(q, false, vs[..i]), vs[i]);
  }

  /** The bytes of the bio_vecs, in order, in no more entries than any partition has runs. */
  ghost predicate MapsAll(q: Limits, vs: seq<Vec>, sg: seq<Vec>) {
    && Bytes(sg) == Bytes(vs)
    && (forall p :: Partition(q, vs, p) ==> |sg| <= |p|)
  }

  lemma GreedyMaps(q: Limits, vs: seq<Vec>)
    ensures MapsAll(q, vs, Entries(Greedy(q, false, vs)))
  {
    GreedyValid(q, false, vs);
    EntriesCover(q, Greedy(q, false, vs));
    forall p | Partition(q, vs, p)
      ensures |Greedy(q, false, vs)| <= |p|
    {
      GreedyMinimal(q, vs, p);
    }
  }

  /** blk_rq_map_sg up to pad and drain. */
  method MapSg(q: Limits, vs: seq<Vec>) returns (sg: seq<Vec>)
    ensures MapsAll(q, vs, sg)
  {
    sg := [];
    for i := 0 to |vs|
      invariant sg == MapAt(q, vs, i)
    {
      var v := vs[i];
      if i > 0 && sg[|sg| - 1].len + v.len <= q.maxSegmentSize && Joinable(q, vs[i - 1], v) {
        MapStepJoin(q, vs, i);
        sg := sg[|sg| - 1 := sg[|sg| - 1].(len := sg[|sg| - 1].len + v.len)];
      } else {
        MapStepNew(q, vs, i);
        sg := sg + [v];
      }
    }
    assert vs[..|vs|] == vs;
    GreedyMaps(q, vs);
  }

  /** __blk_recalc_rq_segments: the number of segments, and the sizes of the first
      and the last one, with which it raises bi_seg_front_size and bi_seg_back_size. */
  datatype Recount = Recount(segs: nat, first: nat, last: nat)

  function RecountOf(g: seq<seq<Vec>>): Recount {
    if g == [] then Recount(0, 0, 0) else Recount(|g|, Total(g[0]), Total(g[|g| - 1]))
  }

  function RecountAt(q: Limits, vs: seq<Vec>, i: nat): Recount
    requires i <= |vs|
  {
    RecountOf(Greedy(q, true, vs[..i]))
  }

  lemma RecalcJoin(q: Limits, vs: seq<Vec>, i: nat)
    requires i < |vs| && Continues(q, true, vs, i, RecountAt(q, vs, i).last)
    ensures var r, v := RecountAt(q, vs, i), vs[i];
            RecountAt(q, vs, i + 1) == Recount(r.segs, if r.segs == 1 then r.last + v.len else r.first, r.last + v.len)
    ensures RecountAt(q, vs, i).segs > 0
  {
    var g, v := Greedy(q, true, vs[..i]), vs[i];
    GreedyStep(q, true, vs, i);
    ContinuesIs(q, true, vs, i);
    EntryGrown(g[|g| - 1], v);
  }

  lemma RecalcNew(q: Limits, vs: seq<Vec>, i: nat)
    requires i < |vs| && !Continues(q, true, vs, i, RecountAt(q, vs, i).last)
    ensures var r, v := RecountAt(q, vs, i), vs[i];
            RecountAt(q, vs, i + 1) == Recount(r.segs + 1, if r.segs == 0 then v.len else r.first, v.len)
  {
    var g, v := Greedy(q, true, vs[..i]), vs[i];
    GreedyStep(q, true, vs, i);
    if i > 0 {
      ContinuesIs(q, true, vs, i);
    }
    TotalOne(v);
  }

  /** What the loop's variables say; the first size is recorded when its segment ends. */
  ghost predicate Tracks(r: Recount, nr: nat, segSize: nat, front: nat) {
    && r == Recount(nr, if nr == 1 then segSize else front, segSize)
    && (nr <= 1 ==> front == 0)
  }

  method RecalcSegments(q: Limits, vs: seq<Vec>) returns (r: Recount)
    ensures r == RecountOf(Greedy(q, true, vs))
  {
    var segSize: nat, nr: nat, front: nat := 0, 0, 0;
    var highPrev := true;
    for i := 0 to |vs|
      invariant Tracks(RecountAt(q, vs, i), nr, segSize, front)
      invariant i > 0 ==> highPrev == High(q, vs[i - 1])
    {
      var v := vs[i];
      var high := High(q, v);
      if i > 0 && !high && !highPrev && segSize + v.len <= q.maxSegmentSize && Joinable(q, vs[i - 1], v) {
        RecalcJoin(q, vs, i);
        segSize := segSize + v.len;
      } else {
        RecalcNew(q, vs, i);
        if nr == 1 && segSize > front {
          front := segSize;
        }
        nr := nr + 1;
        segSize := v.len;
        highPrev := high;
      }
    }
    assert vs[..|vs|] == vs;
    if nr == 1 && segSize > front {
      front := segSize;
    }
    r := Recount(nr, front, segSize);
  }
}
