/**
 What every merge keeps: the segment counter and the cached segment sizes bound a
 partition of the request's bio_vecs; the chain is gap-free; __data_len is the sum
 of the bio sizes; and the failfast bits of request and bios agree.
 */
module RequestInvariant {
  import opened Segments
  import opened RequestModel

  // ----- segments -----------------------------------------------------------

  /** `p` is a partition into `segs` runs, the first of at most `front` bytes and
      the last of at most `back`. */
  ghost predicate FitsBy(q: Limits, vs: seq<Vec>, segs: nat, front: nat, back: nat, p: seq<seq<Vec>>) {
    && Partition(q, vs, p) && |p| == segs
    && (p != [] ==> Total(p[0]) <= front && Total(p[|p| - 1]) <= back)
  }

  ghost predicate Fits(q: Limits, vs: seq<Vec>, segs: nat, front: nat, back: nat) {
    exists p :: FitsBy(q, vs, segs, front, back, p)
  }

  lemma FitsRaise(q: Limits, vs: seq<Vec>, segs: nat, front: nat, back: nat, front': nat, back': nat)
    requires Fits(q, vs, segs, front, back) && front <= front' && back <= back'
    ensures Fits(q, vs, segs, front', back')
  {
    var p :| FitsBy(q, vs, segs, front, back, p);
    assert FitsBy(q, vs, segs, front', back', p);
  }

  lemma FitsRecount(q: Limits, vs: seq<Vec>, front: nat, back: nat)
    ensures var r := RecountOf(Greedy(q, true, vs)); Fits(q, vs, r.segs, Max(front, r.first), Max(back, r.last))
  {
    var g, r := Greedy(q, true, vs), RecountOf(Greedy(q, true, vs));
    GreedyValid(q, true, vs);
    assert FitsBy(q, vs, r.segs, Max(front, r.first), Max(back, r.last), g);
  }

  /** Bio_vecs without a segment are none at all. */
  lemma FitsNonempty(q: Limits, vs: seq<Vec>, segs: nat, front: nat, back: nat)
    requires Fits(q, vs, segs, front, back)
    ensures segs > 0 <==> vs != []
  {
    var p :| FitsBy(q, vs, segs, front, back, p);
    if p != [] {
      assert ValidRun(q, p[|p| - 1]);
    }
  }

  lemma FitsConcat(q: Limits, a: seq<Vec>, b: seq<Vec>, n1: nat, f1: nat, b1: nat, n2: nat, f2: nat, b2: nat)
    requires Fits(q, a, n1, f1, b1) && Fits(q, b, n2, f2, b2) && a != [] && b != []
    ensures Fits(q, a + b, n1 + n2, f1, b2)
  {
    FitsNonempty(q, a, n1, f1, b1);
    FitsNonempty(q, b, n2, f2, b2);
    var p :| FitsBy(q, a, n1, f1, b1, p);
    var r :| FitsBy(q, b, n2, f2, b2, r);
    FlatSplit(p, r);
    assert FitsBy(q, a + b, n1 + n2, f1, b2, p + r);
  }

  lemma {:induction false} JoinableSplit(q: Limits, x: seq<Vec>, y: seq<Vec>)
    requires AllJoinable(q, x) && AllJoinable(q, y) && x != [] && y != [] && Joinable(q, x[|x| - 1], y[0])
    ensures AllJoinable(q, x + y)
  {
    var z, less := x + y, y[..|y| - 1];
    assert z[..|z| - 1] == x + less;
    if less == [] {
      assert x + less == x;
    } else {
      JoinableSplit(q, x, less);
    }
  }

  lemma RunsJoin(q: Limits, x: seq<Vec>, y: seq<Vec>)
    requires ValidRun(q, x) && ValidRun(q, y) && Joinable(q, x[|x| - 1], y[0])
    requires Total(x) + Total(y) <= q.maxSegmentSize
    ensures ValidRun(q, x + y)
  {
    TotalSplit(x, y);
    JoinableSplit(q, x, y);
  }

  /** The last run of one partition and the first of another, made one. */
  function Weld(p: seq<seq<Vec>>, r: seq<seq<Vec>>): seq<seq<Vec>>
    requires p != [] && r != []
  {
    p[..|p| - 1] + [p[|p| - 1] + r[0]] + r[1..]
  }

  lemma WeldFlat(p: seq<seq<Vec>>, r: seq<seq<Vec>>)
    requires p != [] && r != []
    ensures Flat(Weld(p, r)) == Flat(p) + Flat(r)
  {
    var front, x, y, rest := p[..|p| - 1], p[|p| - 1], r[0], r[1..];
    FlatSplit(front + [x + y], rest);
    FlatLast(front, x + y);
    assert r == [y] + rest;
    FlatSplit([y], rest);
    FlatLast([], y);
    assert [] + [y] == [y];
    assert Flat(front) + (x + y) + Flat(rest) == (Flat(front) + x) + (y + Flat(rest));
  }

  lemma WeldValid(q: Limits, p: seq<seq<Vec>>, r: seq<seq<Vec>>)
    requires AllValid(q, p) && AllValid(q, r) && p != [] && r != [] && ValidRun(q, p[|p| - 1] + r[0])
    ensures AllValid(q, Weld(p, r))
  {
    var w := Weld(p, r);
    forall i | 0 <= i < |w|
      ensures ValidRun(q, w[i])
    {
      if i >= |p| {
        assert w[i] == r[i - |p| + 1];
      } else if i < |p| - 1 {
        assert w[i] == p[i];
      }
    }
  }

  lemma WeldFits(q: Limits, a: seq<Vec>, b: seq<Vec>, p: seq<seq<Vec>>, r: seq<seq<Vec>>,
                 n1: nat, f1: nat, b1: nat, n2: nat, f2: nat, b2: nat)
    requires FitsBy(q, a, n1, f1, b1, p) && FitsBy(q, b, n2, f2, b2, r) && p != [] && r != []
    requires a != [] && b != [] && Joinable(q, a[|a| - 1], b[0]) && b1 + f2 <= q.maxSegmentSize
    ensures FitsBy(q, a + b, n1 + n2 - 1, if n1 == 1 then b1 + f2 else f1, if n2 == 1 then b1 + f2 else b2, Weld(p, r))
  {
    var x, y, w := p[|p| - 1], r[0], Weld(p, r);
    assert ValidRun(q, x) && ValidRun(q, y);
    assert ValidRun(q, x + y) by {
      Ends(p, x, y, r, a, b);
      RunsJoin(q, x, y);
    }
    WeldValid(q, p, r);
    WeldFlat(p, r);
    TotalSplit(x, y);
    assert w[|p| - 1] == x + y;
    assert n1 > 1 ==> w[0] == p[0];
    assert n2 > 1 ==> w[|w| - 1] == r[|r| - 1];
  }

  lemma Ends(p: seq<seq<Vec>>, x: seq<Vec>, y: seq<Vec>, r: seq<seq<Vec>>, a: seq<Vec>, b: seq<Vec>)
    requires p != [] && r != [] && p[|p| - 1] == x != [] && r[0] == y != [] && Flat(p) == a && Flat(r) == b
    ensures a != [] && b != [] && a[|a| - 1] == x[|x| - 1] && b[0] == y[0]
  {
    assert r == [y] + r[1..];
    FlatSplit([y], r[1..]);
    FlatLast([], y);
    assert [] + [y] == [y];
  }

  lemma FitsJoin(q: Limits, a: seq<Vec>, b: seq<Vec>, n1: nat, f1: nat, b1: nat, n2: nat, f2: nat, b2: nat)
    requires Fits(q, a, n1, f1, b1) && Fits(q, b, n2, f2, b2) && a != [] && b != []
    requires Joinable(q, a[|a| - 1], b[0]) && b1 + f2 <= q.maxSegmentSize && n1 > 0 && n2 > 0
    ensures Fits(q, a + b, n1 + n2 - 1, if n1 == 1 then b1 + f2 else f1, if n2 == 1 then b1 + f2 else b2)
  {
    var p :| FitsBy(q, a, n1, f1, b1, p);
    var r :| FitsBy(q, b, n2, f2, b2, r);
    WeldFits(q, a, b, p, r, n1, f1, b1, n2, f2, b2);
  }

  /** With one segment, either cached size bounds it. */
  lemma FitsOne(q: Limits, vs: seq<Vec>, front: nat, back: nat, size: nat)
    requires Fits(q, vs, 1, front, back)
    ensures back <= size ==> Fits(q, vs, 1, size, back)
    ensures front <= size ==> Fits(q, vs, 1, front, size)
  {
    var p :| FitsBy(q, vs, 1, front, back, p);
    if back <= size {
      assert FitsBy(q, vs, 1, size, back, p);
    }
    if front <= size {
      assert FitsBy(q, vs, 1, front, size, p);
    }
  }

  // ----- what every request keeps -------------------------------------------

  ghost predicate HasBytes(b: Bio) {
    && b.vecs != [] && (forall i :: 0 <= i < |b.vecs| ==> b.vecs[i].len > 0)
    && b.size == Total(b.vecs)
  }

  /** A bio as it is submitted: counted bios were counted right. */
  ghost predicate BioOk(q: Limits, b: Bio) { HasBytes(b) && (b.counted ==> Fits(q, b.vecs, b.segs, b.front, b.back)) }

  function Sum(bios: seq<Bio>): nat { if bios == [] then 0 else Sum(bios[..|bios| - 1]) + bios[|bios| - 1].size }

  ghost predicate AllHaveBytes(bios: seq<Bio>) { forall i :: 0 <= i < |bios| ==> HasBytes(bios[i]) }

  ghost predicate LenIn(bios: seq<Bio>, dataLen: nat) {
    bios != [] && dataLen == Sum(bios) && AllHaveBytes(bios)
  }

  ghost predicate SegsIn(q: Limits, bios: seq<Bio>, segs: nat) {
    bios != [] && Fits(q, Vecs(bios), segs, bios[0].front, bios[|bios| - 1].back)
  }

  /** The failfast bits a bio asks for; read-ahead asks for all. */
  function Wanted(b: Bio): set<FailFast> { if b.ahead then FailFastMask() else b.ff }

  /** A mixed request has its first bio's bits; an unmixed one all its bios' bits,
      and no bit one of them does not ask for. */
  ghost predicate BitsIn(bios: seq<Bio>, ff: set<FailFast>, mixed: bool) {
    && bios != []
    && (mixed ==> ff == bios[0].ff)
    && (!mixed ==> forall i :: 0 <= i < |bios| ==> bios[i].ff <= ff <= Wanted(bios[i]))
  }

  ghost predicate RequestIn(q: Limits, bios: seq<Bio>, n: nat, segs: nat, ff: set<FailFast>, mixed: bool) {
    LenIn(bios, n) && SegsIn(q, bios, segs) && BitsIn(bios, ff, mixed)
  }

  ghost predicate RequestInv(q: Limits, rq: Request) {
    RequestIn(q, rq.bios, rq.dataLen, rq.segs, rq.ff, rq.mixed)
  }

  /** Whole sectors, one bio after the other, starting at the request's sector. */
  ghost predicate GapFree(bios: seq<Bio>) {
    bios == [] ||
    var n := |bios| - 1;
    GapFree(bios[..n]) && bios[n].size % SECTOR == 0 && (n > 0 ==> bios[n].sector == EndSector(bios[n - 1]))
  }

  /** The sector behind a bio. */
  function EndSector(b: Bio): nat { b.sector + b.size / SECTOR }

  ghost predicate ChainIn(bios: seq<Bio>, sector: nat) {
    bios != [] && bios[0].sector == sector && GapFree(bios)
  }

  ghost predicate ChainInv(rq: Request) { ChainIn(rq.bios, rq.sector) }

  // ----- chains -------------------------------------------------------------

  lemma {:induction false} VecsSplit(a: seq<Bio>, b: seq<Bio>)
    ensures Vecs(a + b) == Vecs(a) + Vecs(b)
  {
    if b == [] {
      assert a + b == a;
    } else {
      assert (a + b)[..|a + b| - 1] == a + b[..|b| - 1];
      VecsSplit(a, b[..|b| - 1]);
    }
  }

  lemma {:induction false} SumSplit(a: seq<Bio>, b: seq<Bio>)
    ensures Sum(a + b) == Sum(a) + Sum(b)
  {
    if b == [] {
      assert a + b == a;
    } else {
      assert (a + b)[..|a + b| - 1] == a + b[..|b| - 1];
      SumSplit(a, b[..|b| - 1]);
    }
  }

  /** The bios of two chains that differ only in counts, cached sizes and bits. */
  ghost predicate SameData(a: seq<Bio>, b: seq<Bio>) {
    && |a| == |b|
    && forall i :: 0 <= i < |a| ==>
        a[i].id == b[i].id && a[i].vecs == b[i].vecs && a[i].size == b[i].size && a[i].sector == b[i].sector
        && a[i].ahead == b[i].ahead
  }

  lemma {:induction false} SameDataIs(a: seq<Bio>, b: seq<Bio>)
    requires SameData(a, b)
    ensures Vecs(a) == Vecs(b) && Sum(a) == Sum(b)
    ensures GapFree(a) ==> GapFree(b)
  {
    if a != [] {
      SameDataIs(a[..|a| - 1], b[..|b| - 1]);
    }
  }

  lemma One(b: Bio)
    ensures Vecs([b]) == b.vecs && Sum([b]) == b.size
  {
    assert [b][..|[b]| - 1] == [];
    assert [] + b.vecs == b.vecs;
  }

  lemma {:induction false} VecsData(bios: seq<Bio>)
    requires bios != [] && forall i :: 0 <= i < |bios| ==> bios[i].vecs != []
    ensures Vecs(bios) != []
    ensures Vecs(bios)[0] == bios[0].vecs[0]
    ensures var b := bios[|bios| - 1]; Vecs(bios)[|Vecs(bios)| - 1] == b.vecs[|b.vecs| - 1]
  {
    if |bios| == 1 {
      assert bios == [bios[0]];
      One(bios[0]);
    } else {
      VecsData(bios[..|bios| - 1]);
    }
  }

  lemma {:induction false} GapFreeEnd(bios: seq<Bio>)
    requires bios != [] && GapFree(bios)
    ensures Sum(bios) % SECTOR == 0 && bios[0].sector + Sum(bios) / SECTOR == EndSector(bios[|bios| - 1])
  {
    var n := |bios| - 1;
    if n == 0 {
      assert bios == [bios[0]];
      One(bios[0]);
    } else {
      GapFreeEnd(bios[..n]);
      WholeAdd(Sum(bios[..n]), bios[n].size);
    }
  }

  lemma WholeAdd(a: nat, b: nat)
    requires a % SECTOR == 0 && b % SECTOR == 0
    ensures (a + b) % SECTOR == 0 && (a + b) / SECTOR == a / SECTOR + b / SECTOR
  {
  }

  lemma {:induction false} GapFreeSplit(a: seq<Bio>, b: seq<Bio>)
    requires a != [] && b != [] && GapFree(a) && GapFree(b) && b[0].sector == EndSector(a[|a| - 1])
    ensures GapFree(a + b)
  {
    var c, less := a + b, b[..|b| - 1];
    assert c[..|c| - 1] == a + less;
    if less == [] {
      assert a + less == a;
    } else {
      GapFreeSplit(a, less);
    }
  }

  lemma GapFreeOne(b: Bio)
    requires b.size % SECTOR == 0
    ensures GapFree([b])
  {
    assert [b][..0] == [];
  }

  // ----- a new request ------------------------------------------------------

  lemma CountedFits(q: Limits, b: Bio)
    requires BioOk(q, b)
    ensures var c := Counted(q, b); Fits(q, c.vecs, c.segs, c.front, c.back)
  {
    if !b.counted {
      FitsRecount(q, b.vecs, b.front, b.back);
    }
  }

  lemma MaskIsAll(ff: set<FailFast>)
    ensures ff <= FailFastMask()
  {
    forall f | f in ff
      ensures f in FailFastMask()
    {
      match f {
        case Dev =>
        case Transport =>
        case Driver =>
      }
    }
  }

  lemma SingleIn(q: Limits, b: Bio, ff: set<FailFast>)
    requires HasBytes(b) && Fits(q, b.vecs, b.segs, b.front, b.back) && b.ff <= ff <= Wanted(b)
    ensures RequestIn(q, [b], b.size, b.segs, ff, false)
  {
    One(b);
  }

  lemma FromBioIs(q: Limits, b: Bio)
    ensures var c, r := Counted(q, b), FromBio(q, b);
            && r.bios == [c] && r.dataLen == b.size && r.segs == c.segs && r.sector == b.sector && !r.mixed
            && r.ff == Wanted(b) && c.size == b.size && c.vecs == b.vecs && c.sector == b.sector && c.ff == b.ff && c.ahead == b.ahead
  {
  }

  lemma FromBioKept(q: Limits, b: Bio)
    requires BioOk(q, b)
    ensures RequestInv(q, FromBio(q, b))
    ensures b.size % SECTOR == 0 ==> ChainInv(FromBio(q, b))
  {
    FromBioIs(q, b);
    assert RequestIn(q, [Counted(q, b)], b.size, Counted(q, b).segs, Wanted(b), false) by {
      CountedFits(q, b);
      MaskIsAll(b.ff);
      SingleIn(q, Counted(q, b), Wanted(b));
    }
    if b.size % SECTOR == 0 {
      GapFreeOne(Counted(q, b));
    }
  }

  // ----- merging a bio ------------------------------------------------------

  /** Counting a bio of the chain only raises its cached sizes. */
  lemma RecountKept(q: Limits, bios: seq<Bio>, segs: nat, i: nat)
    requires SegsIn(q, bios, segs) && i < |bios|
    ensures var r := bios[i := Counted(q, bios[i])]; SegsIn(q, r, segs) && SameData(bios, r) && SameBits(bios, r)
  {
    var r := bios[i := Counted(q, bios[i])];
    SameDataIs(bios, r);
    FitsRaise(q, Vecs(bios), segs, bios[0].front, bios[|bios| - 1].back, r[0].front, r[|bios| - 1].back);
  }

  ghost predicate SameBits(a: seq<Bio>, b: seq<Bio>) {
    |a| == |b| && forall i :: 0 <= i < |a| ==> a[i].ff == b[i].ff
  }

  ghost predicate SameSizes(a: seq<Bio>, b: seq<Bio>) {
    |a| == |b| && forall i :: 0 <= i < |a| ==> a[i].front == b[i].front && a[i].back == b[i].back
  }

  lemma SameKept(q: Limits, a: seq<Bio>, b: seq<Bio>)
    requires SameData(a, b)
    ensures forall n :: LenIn(a, n) ==> LenIn(b, n)
    ensures SameBits(a, b) ==> forall ff, mixed :: BitsIn(a, ff, mixed) ==> BitsIn(b, ff, mixed)
    ensures SameSizes(a, b) ==> forall segs :: SegsIn(q, a, segs) ==> SegsIn(q, b, segs)
    ensures forall sector :: ChainIn(a, sector) ==> ChainIn(b, sector)
  {
    SameDataIs(a, b);
  }

  /** The chain as __make_request leaves it before the new bio is linked in. */
  function Readied(rq: Request, ff: set<FailFast>): Request { if rq.ff != ff then SetMixed(rq) else rq }

  lemma ReadiedKept(rq: Request, ff: set<FailFast>)
    requires BitsIn(rq.bios, rq.ff, rq.mixed)
    ensures var m := Readied(rq, ff);
            && SameData(rq.bios, m.bios) && SameSizes(rq.bios, m.bios) && BitsIn(m.bios, rq.ff, m.mixed)
            && (!m.mixed ==> rq.ff == ff)
  {
  }

  lemma SegsAppend(q: Limits, bios: seq<Bio>, segs: nat, b: Bio)
    requires SegsIn(q, bios, segs) && Vecs(bios) != [] && HasBytes(b) && Fits(q, b.vecs, b.segs, b.front, b.back)
    ensures SegsIn(q, bios + [b], segs + b.segs) && SegsIn(q, [b] + bios, segs + b.segs)
  {
    One(b);
    var f, k := bios[0].front, bios[|bios| - 1].back;
    VecsSplit(bios, [b]);
    FitsConcat(q, Vecs(bios), b.vecs, segs, f, k, b.segs, b.front, b.back);
    VecsSplit([b], bios);
    FitsConcat(q, b.vecs, Vecs(bios), b.segs, b.front, b.back, segs, f, k);
  }

  lemma LenAppend(bios: seq<Bio>, n: nat, b: Bio)
    requires LenIn(bios, n) && HasBytes(b)
    ensures LenIn(bios + [b], n + b.size) && LenIn([b] + bios, n + b.size)
  {
    One(b);
    SumSplit(bios, [b]);
    SumSplit([b], bios);
  }

  lemma BitsAppend(bios: seq<Bio>, ff: set<FailFast>, mixed: bool, b: Bio)
    requires BitsIn(bios, ff, mixed) && (!mixed ==> ff == b.ff)
    ensures BitsIn(bios + [b], ff, mixed) && BitsIn([b] + bios, b.ff, mixed)
  {
    MaskIsAll(ff);
  }

  lemma ReadiedIs(rq: Request, b: Bio, back: bool)
    ensures var m, j := Readied(rq, b.ff), Joined(rq, b, back);
            && j.bios == (if back then m.bios + [b] else [b] + m.bios) && j.dataLen == rq.dataLen + b.size
            && j.ff == (if back then rq.ff else b.ff) && j.mixed == m.mixed
  {
  }

  lemma JoinedLen(q: Limits, rq: Request, b: Bio, back: bool)
    requires LenIn(rq.bios, rq.dataLen) && BitsIn(rq.bios, rq.ff, rq.mixed) && HasBytes(b)
    ensures LenIn(Joined(rq, b, back).bios, Joined(rq, b, back).dataLen)
  {
    var m := Readied(rq, b.ff);
    ReadiedIs(rq, b, back);
    ReadiedKept(rq, b.ff);
    SameKept(q, rq.bios, m.bios);
    LenAppend(m.bios, rq.dataLen, b);
  }

  lemma JoinedSegs(q: Limits, rq: Request, b: Bio, back: bool)
    requires SegsIn(q, rq.bios, rq.segs) && BitsIn(rq.bios, rq.ff, rq.mixed) && Vecs(rq.bios) != []
    requires HasBytes(b) && Fits(q, b.vecs, b.segs, b.front, b.back)
    ensures SegsIn(q, Joined(rq, b, back).bios, rq.segs + b.segs)
  {
    var m := Readied(rq, b.ff);
    ReadiedIs(rq, b, back);
    ReadiedKept(rq, b.ff);
    SameKept(q, rq.bios, m.bios);
    SameDataIs(rq.bios, m.bios);
    SegsAppend(q, m.bios, rq.segs, b);
  }

  lemma JoinedBits(rq: Request, b: Bio, back: bool)
    requires BitsIn(rq.bios, rq.ff, rq.mixed)
    ensures var j := Joined(rq, b, back); BitsIn(j.bios, j.ff, j.mixed)
  {
    var m := Readied(rq, b.ff);
    ReadiedIs(rq, b, back);
    ReadiedKept(rq, b.ff);
    BitsAppend(m.bios, rq.ff, m.mixed, b);
  }

  lemma JoinedKept(q: Limits, rq: Request, b: Bio, back: bool)
    requires RequestInv(q, rq) && HasBytes(b) && Fits(q, b.vecs, b.segs, b.front, b.back)
    ensures RequestInv(q, Joined(rq, b, back).(segs := rq.segs + b.segs))
  {
    VecsData(rq.bios);
    JoinedLen(q, rq, b, back);
    JoinedSegs(q, rq, b, back);
    JoinedBits(rq, b, back);
  }

  lemma JoinedChain(q: Limits, rq: Request, b: Bio, back: bool)
    requires LenIn(rq.bios, rq.dataLen) && BitsIn(rq.bios, rq.ff, rq.mixed) && ChainInv(rq)
    requires b.size % SECTOR == 0 && Adjacent(rq, b, back)
    ensures ChainInv(Joined(rq, b, back))
  {
    var m := Readied(rq, b.ff);
    ReadiedKept(rq, b.ff);
    SameKept(q, rq.bios, m.bios);
    GapFreeEnd(m.bios);
    SameDataIs(rq.bios, m.bios);
    GapFreeOne(b);
    if back {
      GapFreeSplit(m.bios, [b]);
    } else {
      GapFreeSplit([b], m.bios);
    }
  }

  /** The request is as before, but for counted sizes, REQ_NOMERGE and the counter. */
  lemma TryMergeIs(q: Limits, rq: Request, bio: Bio, back: bool)
    requires rq.bios != []
    ensures var a := TryMerge(q, rq, bio, back);
            && a.rq == rq.(bios := a.rq.bios, noMerge := a.rq.noMerge, segs := a.rq.segs)
            && (a.rq.bios == rq.bios || a.rq.bios == CountEnd(q, rq.bios, back))
            && (a.bio == bio || a.bio == Counted(q, bio))
            && (a.ok ==> a.bio == Counted(q, bio) && a.rq.noMerge == rq.noMerge)
            && a.rq.segs == rq.segs + if a.ok then a.bio.segs else 0
  {
  }

  lemma CountEndKept(q: Limits, bios: seq<Bio>, n: nat, segs: nat, ff: set<FailFast>, mixed: bool, back: bool)
    requires RequestIn(q, bios, n, segs, ff, mixed)
    ensures RequestIn(q, CountEnd(q, bios, back), n, segs, ff, mixed)
  {
    RecountKept(q, bios, segs, if back then |bios| - 1 else 0);
    SameKept(q, bios, CountEnd(q, bios, back));
  }

  lemma CountEndChain(q: Limits, bios: seq<Bio>, sector: nat, back: bool)
    requires bios != []
    ensures SameData(bios, CountEnd(q, bios, back)) && (ChainIn(bios, sector) ==> ChainIn(CountEnd(q, bios, back), sector))
  {
    assert SameData(bios, CountEnd(q, bios, back));
    SameKept(q, bios, CountEnd(q, bios, back));
  }

  lemma TryMergeKept(q: Limits, rq: Request, bio: Bio, back: bool)
    requires RequestInv(q, rq)
    ensures var a := TryMerge(q, rq, bio, back);
            RequestInv(q, a.rq.(segs := rq.segs)) && (ChainInv(rq) ==> ChainInv(a.rq)) && SameData(rq.bios, a.rq.bios)
  {
    TryMergeIs(q, rq, bio, back);
    CountEndKept(q, rq.bios, rq.dataLen, rq.segs, rq.ff, rq.mixed, back);
    CountEndChain(q, rq.bios, rq.sector, back);
  }

  lemma CountedOk(q: Limits, b: Bio)
    requires BioOk(q, b)
    ensures BioOk(q, Counted(q, b))
  {
    CountedFits(q, b);
  }

  /** What a bio merge makes of the request. */
  function Merged(q: Limits, rq: Request, bio: Bio, back: bool): Request
    requires rq.bios != []
  {
    var a := TryMerge(q, rq, bio, back);
    if a.ok then Joined(a.rq, a.bio, back) else a.rq
  }

  lemma JoinedCount(rq: Request, b: Bio, back: bool, m: nat, n: nat)
    ensures Joined(rq.(segs := m), b, back).(segs := n) == Joined(rq.(segs := n), b, back)
  {
  }

  lemma MergedIs(q: Limits, rq: Request, bio: Bio, back: bool)
    requires rq.bios != []
    ensures var a := TryMerge(q, rq, bio, back); var r := a.rq.(segs := rq.segs);
            && (a.ok ==> Merged(q, rq, bio, back) == Joined(r, a.bio, back).(segs := rq.segs + a.bio.segs))
            && (!a.ok ==> Merged(q, rq, bio, back) == r)
  {
    var a := TryMerge(q, rq, bio, back);
    TryMergeIs(q, rq, bio, back);
    JoinedCount(a.rq, a.bio, back, rq.segs, a.rq.segs);
  }

  /** The bio a merge is tried with fits its counts afterwards, if it is accepted. */
  lemma TriedFits(q: Limits, rq: Request, bio: Bio, back: bool)
    requires rq.bios != [] && BioOk(q, bio) && TryMerge(q, rq, bio, back).ok
    ensures var b := TryMerge(q, rq, bio, back).bio; HasBytes(b) && Fits(q, b.vecs, b.segs, b.front, b.back)
  {
    TryMergeIs(q, rq, bio, back);
    CountedFits(q, bio);
  }

  lemma TriedJoined(q: Limits, rq: Request, bio: Bio, back: bool)
    requires RequestInv(q, rq) && BioOk(q, bio) && TryMerge(q, rq, bio, back).ok
    ensures var a := TryMerge(q, rq, bio, back); var r := a.rq.(segs := rq.segs);
            RequestInv(q, Joined(r, a.bio, back).(segs := r.segs + a.bio.segs))
  {
    var a := TryMerge(q, rq, bio, back);
    var r := a.rq.(segs := rq.segs);
    assert RequestInv(q, r) by {
      TryMergeKept(q, rq, bio, back);
    }
    assert HasBytes(a.bio) && Fits(q, a.bio.vecs, a.bio.segs, a.bio.front, a.bio.back) by {
      TriedFits(q, rq, bio, back);
    }
    JoinedKept(q, r, a.bio, back);
  }

  lemma SameRequest(q: Limits, x: Request, y: Request)
    requires x == y && RequestInv(q, x)
    ensures RequestInv(q, y)
  {
  }

  lemma MergeKept(q: Limits, rq: Request, bio: Bio, back: bool)
    requires RequestInv(q, rq) && BioOk(q, bio)
    ensures RequestInv(q, Merged(q, rq, bio, back))
  {
    var a := TryMerge(q, rq, bio, back);
    MergedIs(q, rq, bio, back);
    if a.ok {
      TriedJoined(q, rq, bio, back);
      SameRequest(q, Joined(a.rq.(segs := rq.segs), a.bio, back).(segs := rq.segs + a.bio.segs), Merged(q, rq, bio, back));
    } else {
      TryMergeKept(q, rq, bio, back);
      SameRequest(q, a.rq.(segs := rq.segs), Merged(q, rq, bio, back));
    }
  }

  lemma MergeChain(q: Limits, rq: Request, bio: Bio, back: bool)
    requires RequestInv(q, rq) && BioOk(q, bio) && ChainInv(rq) && bio.size % SECTOR == 0 && Adjacent(rq, bio, back)
    ensures ChainInv(Merged(q, rq, bio, back))
  {
    TryMergeIs(q, rq, bio, back);
    TryMergeKept(q, rq, bio, back);
    MergedIs(q, rq, bio, back);
    var a := TryMerge(q, rq, bio, back);
    if a.ok {
      JoinedChain(q, a.rq.(segs := rq.segs), a.bio, back);
    }
  }

  // ----- merging two requests -----------------------------------------------

  lemma RequestHasData(q: Limits, rq: Request)
    requires RequestInv(q, rq)
    ensures HasData(rq) && Vecs(rq.bios) != []
  {
    VecsData(rq.bios);
    FitsNonempty(q, Vecs(rq.bios), rq.segs, rq.bios[0].front, rq.bios[|rq.bios| - 1].back);
  }

  /** Both requests keep what they promise when their one-segment sizes are raised. */
  lemma FrontRaised(q: Limits, bios: seq<Bio>, size: nat)
    requires SegsIn(q, bios, 1) && bios[|bios| - 1].back <= size
    ensures var r := SetFront(bios, size); SegsIn(q, r, 1) && SameData(bios, r) && SameBits(bios, r)
  {
    var r := SetFront(bios, size);
    SameDataIs(bios, r);
    FitsOne(q, Vecs(bios), bios[0].front, bios[|bios| - 1].back, size);
  }

  lemma BackRaised(q: Limits, bios: seq<Bio>, size: nat)
    requires SegsIn(q, bios, 1) && bios[0].front <= size
    ensures var r := SetBack(bios, size); SegsIn(q, r, 1) && SameData(bios, r) && SameBits(bios, r)
  {
    var r := SetBack(bios, size);
    SameDataIs(bios, r);
    FitsOne(q, Vecs(bios), bios[0].front, bios[|bios| - 1].back, size);
  }

  /** The chains of a request and its successor, linked. */
  lemma LinkedSegs(q: Limits, x: seq<Bio>, n1: nat, y: seq<Bio>, n2: nat)
    requires SegsIn(q, x, n1) && SegsIn(q, y, n2) && Vecs(x) != [] && Vecs(y) != []
    ensures SegsIn(q, x + y, n1 + n2)
  {
    VecsSplit(x, y);
    FitsConcat(q, Vecs(x), Vecs(y), n1, x[0].front, x[|x| - 1].back, n2, y[0].front, y[|y| - 1].back);
  }

  /** The ends of the linked chain after the sizes are raised. */
  function Raised(x: seq<Bio>, n1: nat, y: seq<Bio>, n2: nat): seq<Bio>
    requires x != [] && y != []
  {
    var size := x[|x| - 1].back + y[0].front;
    (if n1 == 1 then SetFront(x, size) else x) + (if n2 == 1 then SetBack(y, size) else y)
  }

  lemma RaisedData(x: seq<Bio>, n1: nat, y: seq<Bio>, n2: nat)
    requires x != [] && y != []
    ensures var r, size := Raised(x, n1, y, n2), x[|x| - 1].back + y[0].front;
            && SameData(x + y, r) && |r| > 0
            && r[0].front == (if n1 == 1 then size else x[0].front)
            && r[|r| - 1].back == (if n2 == 1 then size else y[|y| - 1].back)
  {
  }

  lemma LinkedJoined(q: Limits, x: seq<Bio>, n1: nat, y: seq<Bio>, n2: nat)
    requires SegsIn(q, x, n1) && SegsIn(q, y, n2) && n1 > 0 && n2 > 0
    requires forall i :: 0 <= i < |x| ==> x[i].vecs != []
    requires forall i :: 0 <= i < |y| ==> y[i].vecs != []
    requires Contiguous(q, x[|x| - 1], y[0])
    ensures SegsIn(q, Raised(x, n1, y, n2), n1 + n2 - 1)
  {
    VecsData(x);
    VecsData(y);
    VecsSplit(x, y);
    RaisedData(x, n1, y, n2);
    SameDataIs(x + y, Raised(x, n1, y, n2));
    FitsJoin(q, Vecs(x), Vecs(y), n1, x[0].front, x[|x| - 1].back, n2, y[0].front, y[|y| - 1].back);
  }

  ghost predicate Joins(q: Limits, req: Request, next: Request)
    requires HasData(req) && HasData(next)
  {
    Contiguous(q, req.bios[|req.bios| - 1], next.bios[0])
  }

  /** The two requests with their sizes raised, if they are contiguous. */
  function RaisedReq(q: Limits, req: Request, next: Request): Request
    requires HasData(req) && HasData(next)
  {
    var a, b := req.bios[|req.bios| - 1], next.bios[0];
    if Contiguous(q, a, b) then req.(bios := FrontBios(req.bios, req.segs, a.back + b.front)) else req
  }

  function RaisedNext(q: Limits, req: Request, next: Request): Request
    requires HasData(req) && HasData(next)
  {
    var a, b := req.bios[|req.bios| - 1], next.bios[0];
    if Contiguous(q, a, b) then next.(bios := BackBios(next.bios, next.segs, a.back + b.front)) else next
  }

  /** The outcome is one of three. */
  lemma TryRequestsCases(q: Limits, req: Request, next: Request)
    requires HasData(req) && HasData(next)
    ensures var p, r, n := TryMergeRequests(q, req, next), RaisedReq(q, req, next), RaisedNext(q, req, next);
            var total := req.segs + next.segs - if Joins(q, req, next) then 1 else 0;
            p == Pair(false, req, next) || p == Pair(false, r, n) || p == Pair(true, r.(segs := total), n)
  {
  }

  /** Only counts and cached sizes differ. */
  ghost predicate SameRest(a: seq<Bio>, b: seq<Bio>) { SameData(a, b) && SameBits(a, b) }

  lemma SameItself(bios: seq<Bio>)
    ensures SameRest(bios, bios)
  {
  }

  lemma FrontSame(bios: seq<Bio>, segs: nat, size: nat)
    requires bios != []
    ensures SameRest(bios, FrontBios(bios, segs, size))
  {
  }

  lemma BackSame(bios: seq<Bio>, segs: nat, size: nat)
    requires bios != []
    ensures SameRest(bios, BackBios(bios, segs, size))
  {
  }

  lemma RaisedReqIs(q: Limits, req: Request, next: Request)
    requires HasData(req) && HasData(next)
    ensures var r := RaisedReq(q, req, next); r == req.(bios := r.bios)
    ensures SameRest(req.bios, RaisedReq(q, req, next).bios)
  {
    assert SameRest(req.bios, RaisedReq(q, req, next).bios) by {
      SameItself(req.bios);
      FrontSame(req.bios, req.segs, req.bios[|req.bios| - 1].back + next.bios[0].front);
    }
  }

  lemma RaisedNextIs(q: Limits, req: Request, next: Request)
    requires HasData(req) && HasData(next)
    ensures var n := RaisedNext(q, req, next); n == next.(bios := n.bios)
    ensures SameRest(next.bios, RaisedNext(q, req, next).bios)
  {
    assert SameRest(next.bios, RaisedNext(q, req, next).bios) by {
      SameItself(next.bios);
      BackSame(next.bios, next.segs, req.bios[|req.bios| - 1].back + next.bios[0].front);
    }
  }

  /** The limit checks change nothing but cached sizes and the counter. */
  lemma TryRequestsIs(q: Limits, req: Request, next: Request)
    requires HasData(req) && HasData(next)
    ensures var p := TryMergeRequests(q, req, next);
            && p.req == req.(bios := p.req.bios, segs := p.req.segs) && p.next == next.(bios := p.next.bios)
            && (!p.ok ==> p.req.segs == req.segs)
    ensures var p := TryMergeRequests(q, req, next); SameRest(req.bios, p.req.bios) && SameRest(next.bios, p.next.bios)
  {
    TryRequestsCases(q, req, next);
    RaisedReqIs(q, req, next);
    RaisedNextIs(q, req, next);
    SameItself(req.bios);
    SameItself(next.bios);
  }

  lemma RaisedReqKept(q: Limits, req: Request, next: Request)
    requires SegsIn(q, req.bios, req.segs) && HasData(req) && HasData(next)
    ensures SegsIn(q, RaisedReq(q, req, next).bios, req.segs)
  {
    if req.segs == 1 {
      FrontRaised(q, req.bios, req.bios[|req.bios| - 1].back + next.bios[0].front);
    }
  }

  lemma RaisedNextKept(q: Limits, req: Request, next: Request)
    requires SegsIn(q, next.bios, next.segs) && HasData(req) && HasData(next)
    ensures SegsIn(q, RaisedNext(q, req, next).bios, next.segs)
  {
    if next.segs == 1 {
      BackRaised(q, next.bios, req.bios[|req.bios| - 1].back + next.bios[0].front);
    }
  }

  /** Refused or not, each request by itself keeps its counter's bound. */
  lemma TryRequestsApart(q: Limits, req: Request, next: Request)
    requires SegsIn(q, req.bios, req.segs) && SegsIn(q, next.bios, next.segs) && HasData(req) && HasData(next)
    ensures var p := TryMergeRequests(q, req, next);
            SegsIn(q, p.req.bios, req.segs) && SegsIn(q, p.next.bios, next.segs)
  {
    TryRequestsCases(q, req, next);
    RaisedReqKept(q, req, next);
    RaisedNextKept(q, req, next);
  }

  lemma RaisedLinked(q: Limits, req: Request, next: Request)
    requires SegsIn(q, req.bios, req.segs) && SegsIn(q, next.bios, next.segs) && HasData(req) && HasData(next)
    ensures SegsIn(q, RaisedReq(q, req, next).bios + RaisedNext(q, req, next).bios,
                   req.segs + next.segs - if Joins(q, req, next) then 1 else 0)
  {
    if Joins(q, req, next) {
      LinkedJoined(q, req.bios, req.segs, next.bios, next.segs);
    } else {
      VecsData(req.bios);
      VecsData(next.bios);
      LinkedSegs(q, req.bios, req.segs, next.bios, next.segs);
    }
  }

  lemma TryRequestsLinked(q: Limits, req: Request, next: Request)
    requires SegsIn(q, req.bios, req.segs) && SegsIn(q, next.bios, next.segs) && HasData(req) && HasData(next)
    requires TryMergeRequests(q, req, next).ok
    ensures var p := TryMergeRequests(q, req, next); SegsIn(q, p.req.bios + p.next.bios, p.req.segs)
  {
    TryRequestsCases(q, req, next);
    RaisedLinked(q, req, next);
  }

  lemma LinkedLen(a: seq<Bio>, m: nat, b: seq<Bio>, n: nat)
    requires LenIn(a, m) && LenIn(b, n)
    ensures LenIn(a + b, m + n)
  {
    SumSplit(a, b);
  }

  lemma LinkedBits(a: seq<Bio>, b: seq<Bio>, ff: set<FailFast>, ff': set<FailFast>, mixed: bool)
    requires BitsIn(a, ff, mixed) && BitsIn(b, ff', mixed) && (!mixed ==> ff == ff')
    ensures BitsIn(a + b, ff, mixed)
  {
  }

  /** The two chains as attempt_merge links them. */
  function MixedIf(rq: Request, mix: bool): Request { if mix then SetMixed(rq) else rq }

  lemma MixedIfKept(q: Limits, rq: Request, mix: bool)
    requires BitsIn(rq.bios, rq.ff, rq.mixed) && (rq.mixed ==> mix)
    ensures var m := MixedIf(rq, mix);
            && SameData(rq.bios, m.bios) && SameSizes(rq.bios, m.bios) && BitsIn(m.bios, m.ff, m.mixed) && m.mixed == mix
            && m == rq.(bios := m.bios, mixed := mix)
  {
  }

  lemma LinkedIs(q: Limits, req: Request, next: Request)
    requires HasData(req) && HasData(next) && AttemptMerge(q, req, next).ok
    ensures var a, p := AttemptMerge(q, req, next), TryMergeRequests(q, req, next);
            var mix := req.mixed || next.mixed || req.ff != next.ff;
            var r, n := MixedIf(p.req, mix), MixedIf(p.next, mix);
            p.ok && a.req == r.(bios := r.bios + n.bios, dataLen := r.dataLen + n.dataLen)
            && req.sector + req.dataLen / SECTOR == next.sector
  {
  }

  lemma SameLinked(q: Limits, a: seq<Bio>, b: seq<Bio>, a': seq<Bio>, b': seq<Bio>, segs: nat)
    requires SameData(a, a') && SameData(b, b') && SameSizes(a, a') && SameSizes(b, b') && SegsIn(q, a + b, segs)
    ensures SegsIn(q, a' + b', segs)
  {
    SameDataIs(a + b, a' + b');
  }

  /** A refused merge of two requests costs neither its invariant. */
  lemma RefusedKept(q: Limits, req: Request, next: Request)
    requires RequestInv(q, req) && RequestInv(q, next) && HasData(req) && HasData(next)
    requires !AttemptMerge(q, req, next).ok
    ensures var a := AttemptMerge(q, req, next);
            && RequestInv(q, a.req) && RequestInv(q, a.next)
            && SameData(req.bios, a.req.bios) && SameData(next.bios, a.next.bios)
            && a.req == req.(bios := a.req.bios) && a.next == next.(bios := a.next.bios)
  {
    var p := TryMergeRequests(q, req, next);
    TryRequestsIs(q, req, next);
    TryRequestsApart(q, req, next);
    SameKept(q, req.bios, p.req.bios);
    SameKept(q, next.bios, p.next.bios);
  }

  lemma AcceptedScalars(q: Limits, req: Request, next: Request)
    requires HasData(req) && HasData(next) && AttemptMerge(q, req, next).ok
    ensures var a := AttemptMerge(q, req, next);
            && a.req.dataLen == req.dataLen + next.dataLen && a.req.sector == req.sector
            && a.req.segs == TryMergeRequests(q, req, next).req.segs
  {
    TryRequestsIs(q, req, next);
    LinkedIs(q, req, next);
  }

  /** The merged request's chain is both chains, linked. */
  lemma AcceptedData(q: Limits, req: Request, next: Request)
    requires BitsIn(req.bios, req.ff, req.mixed) && BitsIn(next.bios, next.ff, next.mixed)
    requires HasData(req) && HasData(next) && AttemptMerge(q, req, next).ok
    ensures SameData(req.bios + next.bios, AttemptMerge(q, req, next).req.bios)
  {
    var p := TryMergeRequests(q, req, next);
    TryRequestsIs(q, req, next);
    LinkedIs(q, req, next);
    var mix := req.mixed || next.mixed || req.ff != next.ff;
    MixedData(p.req, mix);
    MixedData(p.next, mix);
    LinkedData(req.bios, next.bios, p.req.bios, p.next.bios, MixedIf(p.req, mix).bios, MixedIf(p.next, mix).bios);
  }

  lemma MixedData(rq: Request, mix: bool)
    ensures SameData(rq.bios, MixedIf(rq, mix).bios)
  {
  }

  lemma LinkedData(a: seq<Bio>, b: seq<Bio>, a1: seq<Bio>, b1: seq<Bio>, a2: seq<Bio>, b2: seq<Bio>)
    requires SameData(a, a1) && SameData(a1, a2) && SameData(b, b1) && SameData(b1, b2)
    ensures SameData(a + b, a2 + b2)
  {
  }

  /** The chain attempt_merge links, by what the limit checks left. */
  lemma LinkedBios(q: Limits, req: Request, next: Request)
    requires HasData(req) && HasData(next) && AttemptMerge(q, req, next).ok
    ensures var p, mix := TryMergeRequests(q, req, next), req.mixed || next.mixed || req.ff != next.ff;
            && p.ok && AttemptMerge(q, req, next).req.bios == MixedIf(p.req, mix).bios + MixedIf(p.next, mix).bios
            && AttemptMerge(q, req, next).req.segs == p.req.segs
  {
  }

  lemma MixedSizes(rq: Request, mix: bool)
    ensures SameData(rq.bios, MixedIf(rq, mix).bios) && SameSizes(rq.bios, MixedIf(rq, mix).bios)
  {
  }

  lemma AcceptedSegs(q: Limits, req: Request, next: Request)
    requires SegsIn(q, req.bios, req.segs) && SegsIn(q, next.bios, next.segs) && HasData(req) && HasData(next)
    requires AttemptMerge(q, req, next).ok
    ensures SegsIn(q, AttemptMerge(q, req, next).req.bios, AttemptMerge(q, req, next).req.segs)
  {
    var p, mix := TryMergeRequests(q, req, next), req.mixed || next.mixed || req.ff != next.ff;
    LinkedBios(q, req, next);
    TryRequestsLinked(q, req, next);
    MixedSizes(p.req, mix);
    MixedSizes(p.next, mix);
    SameLinked(q, p.req.bios, p.next.bios, MixedIf(p.req, mix).bios, MixedIf(p.next, mix).bios, p.req.segs);
  }

  lemma AcceptedBits(q: Limits, req: Request, next: Request)
    requires RequestInv(q, req) && RequestInv(q, next) && HasData(req) && HasData(next)
    requires AttemptMerge(q, req, next).ok
    ensures var a := AttemptMerge(q, req, next); BitsIn(a.req.bios, a.req.ff, a.req.mixed)
  {
    var p := TryMergeRequests(q, req, next);
    TryRequestsIs(q, req, next);
    LinkedIs(q, req, next);
    SameKept(q, req.bios, p.req.bios);
    SameKept(q, next.bios, p.next.bios);
    var mix := req.mixed || next.mixed || req.ff != next.ff;
    MixedIfKept(q, p.req, mix);
    MixedIfKept(q, p.next, mix);
    var r, n := MixedIf(p.req, mix), MixedIf(p.next, mix);
    LinkedBits(r.bios, n.bios, r.ff, n.ff, mix);
  }

  lemma AcceptedKept(q: Limits, req: Request, next: Request)
    requires RequestInv(q, req) && RequestInv(q, next) && HasData(req) && HasData(next)
    requires AttemptMerge(q, req, next).ok
    ensures RequestInv(q, AttemptMerge(q, req, next).req)
  {
    var a := AttemptMerge(q, req, next);
    AcceptedData(q, req, next);
    AcceptedScalars(q, req, next);
    LinkedLen(req.bios, req.dataLen, next.bios, next.dataLen);
    SameKept(q, req.bios + next.bios, a.req.bios);
    AcceptedSegs(q, req, next);
    AcceptedBits(q, req, next);
  }

  lemma AcceptedChain(q: Limits, req: Request, next: Request)
    requires RequestInv(q, req) && RequestInv(q, next) && HasData(req) && HasData(next)
    requires AttemptMerge(q, req, next).ok && ChainInv(req) && ChainInv(next)
    ensures ChainInv(AttemptMerge(q, req, next).req)
  {
    var a := AttemptMerge(q, req, next);
    AcceptedData(q, req, next);
    AcceptedScalars(q, req, next);
    LinkedIs(q, req, next);
    GapFreeEnd(req.bios);
    GapFreeSplit(req.bios, next.bios);
    SameKept(q, req.bios + next.bios, a.req.bios);
  }
}
