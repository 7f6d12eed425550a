/**
 blk_update_request: completing bytes from the front of a request, seen as
 dropping bytes from its flat stream; and blk_rq_err_bytes, which says how many
 bytes may be failed at once.
 */
module RequestCompletion {
  import opened Segments
  import opened RequestModel
  import opened RequestInvariant

  // ----- the completion -----------------------------------------------------

  /** The bio_vecs left after n bytes. */
  function DropVecs(vs: seq<Vec>, n: nat): seq<Vec> {
    if vs == [] || n == 0 then vs
    else if n >= vs[0].len then DropVecs(vs[1..], n - vs[0].len)
    else [vs[0].(offset := vs[0].offset + n, len := vs[0].len - n)] + vs[1..]
  }

  /** What bio_endio is called with. */
  datatype Ended = Ended(id: nat, error: int)

  /** req_bio_endio's error: a bio some part of which failed earlier fails. */
  function Status(b: Bio, error: int): int { if error != 0 then error else if b.uptodate then 0 else -EIO }

  /** A bio of which n bytes, not all, are done. */
  function Advance(b: Bio, n: nat, error: int): Bio
    requires n <= b.size
  {
    b.(uptodate := b.uptodate && error == 0, size := b.size - n, sector := b.sector + n / SECTOR, vecs := DropVecs(b.vecs, n))
  }

  datatype Done = Done(ended: seq<Ended>, rest: seq<Bio>)

  function Complete(bios: seq<Bio>, n: nat, error: int): Done {
    if bios == [] then Done([], [])
    else if n >= bios[0].size then
      var d := Complete(bios[1..], n - bios[0].size, error);
      Done([Ended(bios[0].id, Status(bios[0], error))] + d.ended, d.rest)
    else if n == 0 then Done([], bios)
    else Done([], [Advance(bios[0], n, error)] + bios[1..])
  }

  function Resized(bios: seq<Bio>, front: nat, back: nat): seq<Bio>
    requires bios != []
  {
    SetBack(SetFront(bios, front), back)
  }

  /** blk_recalc_rq_segments */
  function Recalculated(q: Limits, rq: Request): Request
    requires rq.bios != []
  {
    var r := RecountOf(Greedy(q, true, Vecs(rq.bios)));
    rq.(bios := Resized(rq.bios, Max(rq.bios[0].front, r.first), Max(rq.bios[|rq.bios| - 1].back, r.last)), segs := r.segs)
  }

  datatype Update = Update(more: bool, rq: Request, ended: seq<Ended>)

  /** blk_update_request; `more` is its result. */
  function UpdateRequest(q: Limits, rq: Request, n: nat, error: int): Update
    requires LenIn(rq.bios, rq.dataLen)
  {
    var d := Complete(rq.bios, n, error);
    if d.rest == [] then Update(false, rq.(bios := [], dataLen := 0), d.ended)
    else
      LeftOver(rq.bios, n, error);
      var r := rq.(bios := d.rest, dataLen := rq.dataLen - n, sector := rq.sector + n / SECTOR,
                   ff := if rq.mixed then d.rest[0].ff else rq.ff);
      Update(true, Recalculated(q, r), d.ended)
  }

  // ----- the flat view ------------------------------------------------------

  /** The bytes of a chain, each with the bio it belongs to. */
  datatype Byte = Byte(bio: nat, addr: nat)

  function Tag(id: nat, addrs: seq<nat>): seq<Byte> { seq(|addrs|, i requires 0 <= i < |addrs| => Byte(id, addrs[i])) }

  function Stream(bios: seq<Bio>): seq<Byte> {
    if bios == [] then [] else Tag(bios[0].id, Bytes(bios[0].vecs)) + Stream(bios[1..])
  }

  function Drop<T>(s: seq<T>, n: nat): seq<T> { if n <= |s| then s[n..] else [] }

  lemma BytesFirst(vs: seq<Vec>)
    requires vs != []
    ensures Bytes(vs) == Range(Phys(vs[0]), vs[0].len) + Bytes(vs[1..])
    ensures Total(vs) == vs[0].len + Total(vs[1..])
  {
    assert vs == [vs[0]] + vs[1..];
    BytesSplit([vs[0]], vs[1..]);
    BytesLast([], vs[0]);
    assert [] + [vs[0]] == [vs[0]];
    TotalSplit([vs[0]], vs[1..]);
    TotalOne(vs[0]);
  }

  ghost predicate Positive(vs: seq<Vec>) { forall i :: 0 <= i < |vs| ==> vs[i].len > 0 }

  lemma RangeDrop(addr: nat, n: nat, k: nat)
    requires k <= n
    ensures Range(addr, n)[k..] == Range(addr + k, n - k)
  {
  }

  lemma SliceFirst<T>(a: seq<T>, b: seq<T>, n: nat)
    requires n <= |a|
    ensures (a + b)[n..] == a[n..] + b
  {
  }

  lemma DropInside(vs: seq<Vec>, n: nat)
    requires vs != [] && 0 < n < vs[0].len && n <= Total(vs) && Positive(vs)
    ensures Bytes(DropVecs(vs, n)) == Bytes(vs)[n..] && Positive(DropVecs(vs, n))
  {
    BytesFirst(vs);
    var v := vs[0].(offset := vs[0].offset + n, len := vs[0].len - n);
    RangeDrop(Phys(vs[0]), vs[0].len, n);
    SliceFirst(Range(Phys(vs[0]), vs[0].len), Bytes(vs[1..]), n);
    assert Bytes([v] + vs[1..]) == Range(Phys(v), v.len) + Bytes(vs[1..]) by {
      BytesFirst([v] + vs[1..]);
      assert ([v] + vs[1..])[1..] == vs[1..];
    }
  }

  lemma {:induction false} DropVecsBytes(vs: seq<Vec>, n: nat)
    requires n <= Total(vs) && Positive(vs)
    ensures Bytes(DropVecs(vs, n)) == Bytes(vs)[n..]
    ensures Positive(DropVecs(vs, n))
    ensures DropVecs(vs, n) == [] <==> n == Total(vs)
  {
    if vs != [] && n > 0 {
      BytesFirst(vs);
      if n >= vs[0].len {
        DropVecsBytes(vs[1..], n - vs[0].len);
      } else {
        DropInside(vs, n);
      }
    }
  }

  lemma {:induction false} SumFirst(bios: seq<Bio>)
    requires bios != []
    ensures Sum(bios) == bios[0].size + Sum(bios[1..])
    ensures Vecs(bios) == bios[0].vecs + Vecs(bios[1..])
  {
    assert bios == [bios[0]] + bios[1..];
    SumSplit([bios[0]], bios[1..]);
    VecsSplit([bios[0]], bios[1..]);
    One(bios[0]);
  }

  lemma {:induction false} StreamLength(bios: seq<Bio>)
    requires AllHaveBytes(bios)
    ensures |Stream(bios)| == Sum(bios)
    ensures bios != [] ==> Sum(bios) > 0
  {
    if bios != [] {
      StreamLength(bios[1..]);
      SumFirst(bios);
      assert HasBytes(bios[0]);
      BytesFirst(bios[0].vecs);
    }
  }

  /** A bio advanced by n bytes has lost its first n bytes and no more. */
  lemma Advanced(b: Bio, n: nat, error: int)
    requires HasBytes(b) && n < b.size
    ensures HasBytes(Advance(b, n, error))
    ensures Tag(b.id, Bytes(Advance(b, n, error).vecs)) == Tag(b.id, Bytes(b.vecs))[n..]
  {
    DropVecsBytes(b.vecs, n);
  }

  lemma DropFirst<T>(a: seq<T>, b: seq<T>, n: nat)
    ensures n >= |a| ==> Drop(a + b, n) == Drop(b, n - |a|)
    ensures n < |a| ==> Drop(a + b, n) == a[n..] + b
  {
  }

  /** Completing n bytes drops the first n bytes of the stream. */
  lemma {:induction false} CompleteDrops(bios: seq<Bio>, n: nat, error: int)
    requires AllHaveBytes(bios)
    ensures var rest := Complete(bios, n, error).rest;
            Stream(rest) == Drop(Stream(bios), n) && AllHaveBytes(rest)
  {
    if bios != [] {
      var b, tail := bios[0], bios[1..];
      assert HasBytes(b);
      DropFirst(Tag(b.id, Bytes(b.vecs)), Stream(tail), n);
      if n >= b.size {
        CompleteDrops(tail, n - b.size, error);
      } else if n > 0 {
        Advanced(b, n, error);
        assert ([Advance(b, n, error)] + tail)[1..] == tail;
      }
    }
  }

  /** Bytes are left over exactly when fewer than all are completed, and then that many. */
  lemma LeftOver(bios: seq<Bio>, n: nat, error: int)
    requires AllHaveBytes(bios)
    ensures var rest := Complete(bios, n, error).rest;
            (rest == [] <==> n >= Sum(bios)) && Sum(rest) == (if n >= Sum(bios) then 0 else Sum(bios) - n)
  {
    CompleteDrops(bios, n, error);
    StreamLength(bios);
    StreamLength(Complete(bios, n, error).rest);
  }

  // ----- which bios end -----------------------------------------------------

  function Prefix(bios: seq<Bio>, k: nat): nat
    requires k <= |bios|
  {
    Sum(bios[..k])
  }

  lemma PrefixFirst(bios: seq<Bio>, k: nat)
    requires 0 < k <= |bios|
    ensures Prefix(bios, k) == bios[0].size + Prefix(bios[1..], k - 1)
  {
    SumFirst(bios[..k]);
    assert bios[..k][1..] == bios[1..][..k - 1];
  }

  /** Exactly the bios all of whose bytes are completed end, in chain order, each
      with its status; the next one is advanced and the others are untouched. */
  ghost predicate EndsFirst(bios: seq<Bio>, n: nat, error: int, d: Done, k: nat) {
    && k == |d.ended| <= |bios|
    && (forall i :: 0 <= i < k ==> d.ended[i] == Ended(bios[i].id, Status(bios[i], error)))
    && Prefix(bios, k) <= n && (k < |bios| ==> n - Prefix(bios, k) < bios[k].size)
    && (k == |bios| ==> d.rest == [])
    && (k < |bios| ==>
          d.rest == [if n == Prefix(bios, k) then bios[k] else Advance(bios[k], n - Prefix(bios, k), error)] + bios[k + 1..])
  }

  lemma EndsStep(bios: seq<Bio>, n: nat, error: int, d: Done, k: nat)
    requires bios != [] && n >= bios[0].size && EndsFirst(bios[1..], n - bios[0].size, error, d, k)
    ensures EndsFirst(bios, n, error, Done([Ended(bios[0].id, Status(bios[0], error))] + d.ended, d.rest), k + 1)
  {
    PrefixFirst(bios, k + 1);
    if k + 1 < |bios| {
      assert bios[k + 1..][1..] == bios[1..][k + 1..];
    }
  }

  lemma EndsNone(bios: seq<Bio>, n: nat, error: int)
    requires bios != [] && n < bios[0].size
    ensures EndsFirst(bios, n, error, Complete(bios, n, error), 0)
  {
    assert bios[..0] == [];
    assert bios == [bios[0]] + bios[1..];
  }

  lemma {:induction false} CompleteEnds(bios: seq<Bio>, n: nat, error: int)
    requires AllHaveBytes(bios)
    ensures var d := Complete(bios, n, error); EndsFirst(bios, n, error, d, |d.ended|)
  {
    if bios != [] {
      if n >= bios[0].size {
        CompleteEnds(bios[1..], n - bios[0].size, error);
        var d := Complete(bios[1..], n - bios[0].size, error);
        EndsStep(bios, n, error, d, |d.ended|);
      } else {
        EndsNone(bios, n, error);
      }
    }
  }

  function Ids(bios: seq<Bio>): (r: seq<nat>)
    ensures |r| == |bios| && forall i :: 0 <= i < |bios| ==> r[i] == bios[i].id
  {
    seq(|bios|, i requires 0 <= i < |bios| => bios[i].id)
  }

  function EndedIds(es: seq<Ended>): (r: seq<nat>)
    ensures |r| == |es| && forall i :: 0 <= i < |es| ==> r[i] == es[i].id
  {
    seq(|es|, i requires 0 <= i < |es| => es[i].id)
  }

  /** No bio is lost and none ends twice: the ended ones and the rest are the chain. */
  lemma {:induction false} CompleteIds(bios: seq<Bio>, n: nat, error: int)
    ensures var d := Complete(bios, n, error); EndedIds(d.ended) + Ids(d.rest) == Ids(bios)
  {
    if bios != [] && n >= bios[0].size {
      CompleteIds(bios[1..], n - bios[0].size, error);
      assert Ids(bios) == [bios[0].id] + Ids(bios[1..]);
    }
  }

  // ----- two completions are one --------------------------------------------

  lemma {:induction false} DropVecsTwice(vs: seq<Vec>, a: nat, b: nat)
    requires Positive(vs) && a + b <= Total(vs)
    ensures DropVecs(DropVecs(vs, a), b) == DropVecs(vs, a + b)
  {
    if vs != [] && a > 0 {
      BytesFirst(vs);
      if a >= vs[0].len {
        DropVecsTwice(vs[1..], a - vs[0].len, b);
      } else {
        var v := vs[0].(offset := vs[0].offset + a, len := vs[0].len - a);
        assert ([v] + vs[1..])[1..] == vs[1..];
      }
    }
  }

  /** A bio without its sector and its cached segment sizes. */
  function Bare(b: Bio): Bio { b.(sector := 0, front := 0, back := 0) }

  /** Equal in all that matters later; the first sector and the cached sizes may differ. */
  predicate Alike(a: seq<Bio>, b: seq<Bio>) {
    |a| == |b| && (a == [] || (Bare(a[0]) == Bare(b[0]) && Alike(a[1..], b[1..])))
  }

  lemma {:induction false} AlikeIf(a: seq<Bio>, b: seq<Bio>)
    requires |a| == |b| && forall i :: 0 <= i < |a| ==> Bare(a[i]) == Bare(b[i])
    ensures Alike(a, b)
  {
    if a != [] {
      AlikeIf(a[1..], b[1..]);
    }
  }

  lemma {:induction false} AlikeAt(a: seq<Bio>, b: seq<Bio>, i: nat)
    requires Alike(a, b) && i < |a|
    ensures a[i] == b[i].(sector := a[i].sector, front := a[i].front, back := a[i].back)
  {
    if i > 0 {
      AlikeAt(a[1..], b[1..], i - 1);
    } else {
      BareSame(a[0], b[0]);
    }
  }

  lemma BareSame(b: Bio, c: Bio)
    requires Bare(b) == Bare(c)
    ensures b == c.(sector := b.sector, front := b.front, back := b.back)
  {
    assert Bare(b).(sector := b.sector, front := b.front, back := b.back) == Bare(c).(sector := b.sector, front := b.front, back := b.back);
  }

  lemma {:induction false} AlikeItself(a: seq<Bio>)
    ensures Alike(a, a)
  {
    if a != [] {
      AlikeItself(a[1..]);
    }
  }

  lemma {:induction false} AlikeTurn(a: seq<Bio>, b: seq<Bio>)
    requires Alike(a, b)
    ensures Alike(b, a)
  {
    if a != [] {
      AlikeTurn(a[1..], b[1..]);
    }
  }

  lemma {:induction false} AlikeTrans(x: seq<Bio>, y: seq<Bio>, z: seq<Bio>)
    requires Alike(x, y) && Alike(y, z)
    ensures Alike(x, z)
  {
    if x != [] {
      AlikeTrans(x[1..], y[1..], z[1..]);
    }
  }

  lemma AdvanceTwice(x: Bio, a: nat, b: nat, error: int)
    requires HasBytes(x) && 0 < a && 0 < b && a + b < x.size
    ensures Advance(Advance(x, a, error), b, error) == Advance(x, a + b, error).(sector := x.sector + a / SECTOR + b / SECTOR)
  {
    DropVecsTwice(x.vecs, a, b);
  }

  ghost predicate Twice(bios: seq<Bio>, a: nat, b: nat, error: int) {
    var d1 := Complete(bios, a, error);
    var d2, d := Complete(d1.rest, b, error), Complete(bios, a + b, error);
    d.ended == d1.ended + d2.ended && Alike(d.rest, d2.rest)
  }

  /** The first completion ends inside the first bio. */
  lemma TwiceInside(bios: seq<Bio>, a: nat, b: nat, error: int)
    requires AllHaveBytes(bios) && bios != [] && 0 < a < bios[0].size
    ensures Twice(bios, a, b, error)
  {
    var x, tail := bios[0], bios[1..];
    assert HasBytes(x);
    var y := Advance(x, a, error);
    assert Complete(bios, a, error) == Done([], [y] + tail);
    assert ([y] + tail)[1..] == tail;
    if b > 0 && a + b < x.size {
      AdvanceTwice(x, a, b, error);
      AlikeItself(tail);
      var c, d := [Advance(x, a + b, error)] + tail, [Advance(y, b, error)] + tail;
      assert c[1..] == tail && d[1..] == tail;
    } else {
      AlikeItself(Complete(bios, a + b, error).rest);
    }
  }

  /** The first completion ends the first bio. */
  lemma TwiceStep(bios: seq<Bio>, a: nat, b: nat, error: int)
    requires bios != [] && a >= bios[0].size && Twice(bios[1..], a - bios[0].size, b, error)
    ensures Twice(bios, a, b, error)
  {
    var e := [Ended(bios[0].id, Status(bios[0], error))];
    var d1, d := Complete(bios[1..], a - bios[0].size, error), Complete(bios[1..], a - bios[0].size + b, error);
    var d2 := Complete(d1.rest, b, error);
    assert Complete(bios, a, error) == Done(e + d1.ended, d1.rest);
    assert Complete(bios, a + b, error) == Done(e + d.ended, d.rest);
    assert e + (d1.ended + d2.ended) == e + d1.ended + d2.ended;
  }

  /** Completing a bytes and then b is completing a + b. */
  lemma {:induction false} CompleteTwice(bios: seq<Bio>, a: nat, b: nat, error: int)
    requires AllHaveBytes(bios)
    ensures Twice(bios, a, b, error)
  {
    if bios != [] {
      if a >= bios[0].size {
        CompleteTwice(bios[1..], a - bios[0].size, b, error);
        TwiceStep(bios, a, b, error);
      } else if a > 0 {
        TwiceInside(bios, a, b, error);
      } else {
        AlikeItself(Complete(bios, b, error).rest);
      }
    }
  }

  // ----- blk_update_request -------------------------------------------------

  /** It says whether bytes are left. */
  lemma UpdateMore(q: Limits, rq: Request, n: nat, error: int)
    requires LenIn(rq.bios, rq.dataLen)
    ensures var u := UpdateRequest(q, rq, n, error);
            && (u.more <==> n < rq.dataLen) && (!u.more ==> u.rq.bios == [])
            && u.rq.dataLen == (if u.more then rq.dataLen - n else 0)
            && u.ended == Complete(rq.bios, n, error).ended
  {
    LeftOver(rq.bios, n, error);
  }

  lemma FrontSet(bios: seq<Bio>, size: nat)
    requires bios != []
    ensures SameData(bios, SetFront(bios, size)) && SameBits(bios, SetFront(bios, size)) && Alike(bios, SetFront(bios, size))
  {
    AlikeIf(bios, SetFront(bios, size));
  }

  lemma BackSet(bios: seq<Bio>, size: nat)
    requires bios != []
    ensures SameData(bios, SetBack(bios, size)) && SameBits(bios, SetBack(bios, size)) && Alike(bios, SetBack(bios, size))
  {
    AlikeIf(bios, SetBack(bios, size));
  }

  lemma ResizedIs(bios: seq<Bio>, front: nat, back: nat)
    requires bios != []
    ensures var r := Resized(bios, front, back);
            && SameData(bios, r) && SameBits(bios, r) && Alike(bios, r)
            && r != [] && r[0].front == front && r[|r| - 1].back == back
  {
    FrontSet(bios, front);
    BackSet(SetFront(bios, front), back);
    AlikeTrans(bios, SetFront(bios, front), Resized(bios, front, back));
  }

  lemma RecalculatedSegs(q: Limits, rq: Request)
    requires rq.bios != []
    ensures SegsIn(q, Recalculated(q, rq).bios, Recalculated(q, rq).segs)
  {
    var rc, f, b := RecountOf(Greedy(q, true, Vecs(rq.bios))), rq.bios[0].front, rq.bios[|rq.bios| - 1].back;
    ResizedIs(rq.bios, Max(f, rc.first), Max(b, rc.last));
    SameDataIs(rq.bios, Recalculated(q, rq).bios);
    FitsRecount(q, Vecs(rq.bios), f, b);
  }

  lemma RecalculatedIs(q: Limits, rq: Request)
    requires rq.bios != []
    ensures var r := Recalculated(q, rq);
            && SameData(rq.bios, r.bios) && SameBits(rq.bios, r.bios) && Alike(rq.bios, r.bios)
            && r == rq.(bios := r.bios, segs := |Greedy(q, true, Vecs(rq.bios))|)
  {
    var rc := RecountOf(Greedy(q, true, Vecs(rq.bios)));
    ResizedIs(rq.bios, Max(rq.bios[0].front, rc.first), Max(rq.bios[|rq.bios| - 1].back, rc.last));
  }

  /** The stream after an update is the old one without its first n bytes. */
  lemma UpdateDrops(q: Limits, rq: Request, n: nat, error: int)
    requires LenIn(rq.bios, rq.dataLen)
    ensures Stream(UpdateRequest(q, rq, n, error).rq.bios) == Drop(Stream(rq.bios), n)
  {
    var d := Complete(rq.bios, n, error);
    CompleteDrops(rq.bios, n, error);
    if d.rest != [] {
      RecalculatedIs(q, LeftRequest(rq, n, error));
      SameStream(d.rest, UpdateRequest(q, rq, n, error).rq.bios);
    }
  }

  lemma {:induction false} SameStream(a: seq<Bio>, b: seq<Bio>)
    requires SameData(a, b)
    ensures Stream(a) == Stream(b)
  {
    if a != [] {
      SameStream(a[1..], b[1..]);
    }
  }

  /** The request before its segments are counted again. */
  function LeftRequest(rq: Request, n: nat, error: int): Request
    requires LenIn(rq.bios, rq.dataLen) && Complete(rq.bios, n, error).rest != []
  {
    var rest := Complete(rq.bios, n, error).rest;
    LeftOver(rq.bios, n, error);
    rq.(bios := rest, dataLen := rq.dataLen - n, sector := rq.sector + n / SECTOR,
        ff := if rq.mixed then rest[0].ff else rq.ff)
  }

  /** What is left are the bios behind those ended; the first keeps its bits. */
  lemma RestOf(bios: seq<Bio>, n: nat, error: int)
    requires AllHaveBytes(bios) && Complete(bios, n, error).rest != []
    ensures var d := Complete(bios, n, error); var k := |d.ended|;
            && k < |bios| && d.rest == [d.rest[0]] + bios[k + 1..]
            && d.rest[0].ff == bios[k].ff && d.rest[0].ahead == bios[k].ahead
  {
    CompleteEnds(bios, n, error);
  }

  lemma BitsBehind(bios: seq<Bio>, k: nat, first: Bio, ff: set<FailFast>)
    requires k < |bios| && BitsIn(bios, ff, false) && first.ff == bios[k].ff && first.ahead == bios[k].ahead
    ensures BitsIn([first] + bios[k + 1..], ff, false)
  {
    var r := [first] + bios[k + 1..];
    forall i | 0 <= i < |r|
      ensures r[i].ff <= ff <= Wanted(r[i])
    {
      assert bios[k + i].ff <= ff <= Wanted(bios[k + i]);
    }
  }

  lemma RestBits(rq: Request, n: nat, error: int)
    requires LenIn(rq.bios, rq.dataLen) && BitsIn(rq.bios, rq.ff, rq.mixed) && Complete(rq.bios, n, error).rest != []
    ensures var r := LeftRequest(rq, n, error); BitsIn(r.bios, r.ff, r.mixed)
  {
    var d := Complete(rq.bios, n, error);
    RestOf(rq.bios, n, error);
    if !rq.mixed {
      BitsBehind(rq.bios, |d.ended|, d.rest[0], rq.ff);
    }
  }

  /** A partly completed request is as good as any. */
  lemma UpdateKept(q: Limits, rq: Request, n: nat, error: int)
    requires RequestInv(q, rq) && n < rq.dataLen
    ensures RequestInv(q, UpdateRequest(q, rq, n, error).rq)
  {
    LeftOver(rq.bios, n, error);
    var r := LeftRequest(rq, n, error);
    CompleteDrops(rq.bios, n, error);
    RestBits(rq, n, error);
    RecalculatedIs(q, r);
    RecalculatedSegs(q, r);
    SameKept(q, r.bios, Recalculated(q, r).bios);
  }

  /** No request is ever "botched": its first bio_vec is never longer than its data. */
  lemma NotBotched(rq: Request)
    requires LenIn(rq.bios, rq.dataLen)
    ensures rq.bios[0].vecs != [] && 0 < rq.bios[0].vecs[0].len <= rq.dataLen
  {
    SumFirst(rq.bios);
    BytesFirst(rq.bios[0].vecs);
  }

  lemma SectorsAdd(a: nat, b: nat)
    ensures (a + b) / SECTOR == a / SECTOR + b / SECTOR <==> a % SECTOR + b % SECTOR < SECTOR
  {
  }

  lemma AlikeAdvance(b: Bio, c: Bio, n: nat, error: int)
    requires Bare(b) == Bare(c) && n <= b.size
    ensures n <= c.size && Bare(Advance(b, n, error)) == Bare(Advance(c, n, error)) && Status(b, error) == Status(c, error)
  {
    BareSame(b, c);
  }

  lemma {:induction false} AlikeComplete(x: seq<Bio>, y: seq<Bio>, n: nat, error: int)
    requires Alike(x, y)
    ensures Complete(x, n, error).ended == Complete(y, n, error).ended
    ensures Alike(Complete(x, n, error).rest, Complete(y, n, error).rest)
  {
    if x != [] {
      BareSame(x[0], y[0]);
      if n >= x[0].size {
        AlikeComplete(x[1..], y[1..], n - x[0].size, error);
      } else if n > 0 {
        AlikeAdvance(x[0], y[0], n, error);
        assert ([Advance(x[0], n, error)] + x[1..])[1..] == x[1..] && ([Advance(y[0], n, error)] + y[1..])[1..] == y[1..];
      }
    }
  }

  lemma {:induction false} AlikeVecs(x: seq<Bio>, y: seq<Bio>)
    requires Alike(x, y)
    ensures Vecs(x) == Vecs(y)
  {
    if x != [] {
      SumFirst(x);
      SumFirst(y);
      BareSame(x[0], y[0]);
      AlikeVecs(x[1..], y[1..]);
    }
  }

  /** An unfinished update, field by field. */
  lemma UpdateIs(q: Limits, rq: Request, n: nat, error: int)
    requires LenIn(rq.bios, rq.dataLen) && n < rq.dataLen
    ensures var u, rest := UpdateRequest(q, rq, n, error), Complete(rq.bios, n, error).rest;
            && Alike(rest, u.rq.bios) && rest != []
            && u.rq.sector == rq.sector + n / SECTOR && u.rq.mixed == rq.mixed
            && u.rq.ff == (if rq.mixed then rest[0].ff else rq.ff)
            && u.rq.segs == |Greedy(q, true, Vecs(rest))|
  {
    LeftOver(rq.bios, n, error);
    RecalculatedIs(q, LeftRequest(rq, n, error));
  }

  /** An update of a bytes, then one of b. */
  ghost function Again(q: Limits, rq: Request, a: nat, b: nat, error: int): Update
    requires RequestInv(q, rq) && a < rq.dataLen
  {
    UpdateKept(q, rq, a, error);
    UpdateRequest(q, UpdateRequest(q, rq, a, error).rq, b, error)
  }

  /** Updating twice is updating once with the sum: the same result, the same bios
      ended, the same chain, length, segments and bits. */
  lemma UpdateTwice(q: Limits, rq: Request, a: nat, b: nat, error: int)
    requires RequestInv(q, rq) && a < rq.dataLen
    ensures var u1, u2, u := UpdateRequest(q, rq, a, error), Again(q, rq, a, b, error), UpdateRequest(q, rq, a + b, error);
            && u.more == u2.more && u.ended == u1.ended + u2.ended && u.rq.dataLen == u2.rq.dataLen
            && (u.more ==> AlikeRequests(u.rq, u2.rq))
  {
    UpdateKept(q, rq, a, error);
    UpdateMore(q, rq, a, error);
    var u1, d1 := UpdateRequest(q, rq, a, error), Complete(rq.bios, a, error);
    UpdateMore(q, u1.rq, b, error);
    UpdateMore(q, rq, a + b, error);
    UpdateIs(q, rq, a, error);
    CompleteTwice(rq.bios, a, b, error);
    AlikeComplete(d1.rest, u1.rq.bios, b, error);
    if a + b < rq.dataLen {
      RestTwice(q, rq, u1.rq, a, b, error);
    }
  }

  ghost predicate AlikeRequests(x: Request, y: Request) {
    Alike(x.bios, y.bios) && x.dataLen == y.dataLen && x.segs == y.segs && x.ff == y.ff && x.mixed == y.mixed
  }

  /** Two updates that leave alike chains leave alike requests. */
  lemma UpdatesAlike(q: Limits, x: Request, m: nat, y: Request, n: nat, error: int)
    requires LenIn(x.bios, x.dataLen) && LenIn(y.bios, y.dataLen) && m < x.dataLen && n < y.dataLen
    requires Alike(Complete(x.bios, m, error).rest, Complete(y.bios, n, error).rest)
    requires x.dataLen - m == y.dataLen - n && x.mixed == y.mixed && (!x.mixed ==> x.ff == y.ff)
    ensures AlikeRequests(UpdateRequest(q, x, m, error).rq, UpdateRequest(q, y, n, error).rq)
  {
    UpdateIs(q, x, m, error);
    UpdateIs(q, y, n, error);
    UpdateMore(q, x, m, error);
    UpdateMore(q, y, n, error);
    var rx, ry := Complete(x.bios, m, error).rest, Complete(y.bios, n, error).rest;
    AlikeVecs(rx, ry);
    BareSame(rx[0], ry[0]);
    AlikeBoth(rx, UpdateRequest(q, x, m, error).rq.bios, ry, UpdateRequest(q, y, n, error).rq.bios);
  }

  lemma AlikeBoth(rx: seq<Bio>, x: seq<Bio>, ry: seq<Bio>, y: seq<Bio>)
    requires Alike(rx, x) && Alike(ry, y) && Alike(rx, ry)
    ensures Alike(x, y)
  {
    AlikeTurn(rx, x);
    AlikeTrans(x, rx, ry);
    AlikeTrans(x, ry, y);
  }

  lemma RestTwice(q: Limits, rq: Request, y: Request, a: nat, b: nat, error: int)
    requires LenIn(rq.bios, rq.dataLen) && a + b < rq.dataLen && LenIn(y.bios, y.dataLen) && y.dataLen == rq.dataLen - a
    requires Alike(Complete(rq.bios, a, error).rest, y.bios) && y.mixed == rq.mixed && (!rq.mixed ==> y.ff == rq.ff)
    ensures AlikeRequests(UpdateRequest(q, rq, a + b, error).rq, UpdateRequest(q, y, b, error).rq)
  {
    RestsAlike(rq.bios, y.bios, a, b, error);
    UpdatesAlike(q, rq, a + b, y, b, error);
  }

  lemma RestsAlike(bios: seq<Bio>, left: seq<Bio>, a: nat, b: nat, error: int)
    requires AllHaveBytes(bios) && Alike(Complete(bios, a, error).rest, left)
    ensures Alike(Complete(bios, a + b, error).rest, Complete(left, b, error).rest)
  {
    var d1 := Complete(bios, a, error);
    CompleteTwice(bios, a, b, error);
    AlikeComplete(d1.rest, left, b, error);
    AlikeTrans(Complete(bios, a + b, error).rest, Complete(d1.rest, b, error).rest, Complete(left, b, error).rest);
  }

  lemma UpdateSector(q: Limits, rq: Request, n: nat, error: int)
    requires LenIn(rq.bios, rq.dataLen) && n < rq.dataLen
    ensures UpdateRequest(q, rq, n, error).rq.sector == rq.sector + n / SECTOR
  {
    UpdateIs(q, rq, n, error);
  }

  lemma AgainSector(q: Limits, rq: Request, a: nat, b: nat, error: int)
    requires RequestInv(q, rq) && a + b < rq.dataLen
    ensures Again(q, rq, a, b, error).rq.sector == rq.sector + a / SECTOR + b / SECTOR
  {
    UpdateKept(q, rq, a, error);
    UpdateMore(q, rq, a, error);
    UpdateSector(q, rq, a, error);
    UpdateSector(q, UpdateRequest(q, rq, a, error).rq, b, error);
  }

  /** The sector is kept right by two updates exactly when their odd bytes together
      make no whole sector. */
  lemma SectorTwice(q: Limits, rq: Request, a: nat, b: nat, error: int)
    requires RequestInv(q, rq) && a + b < rq.dataLen
    ensures Again(q, rq, a, b, error).rq.sector == UpdateRequest(q, rq, a + b, error).rq.sector
            <==> a % SECTOR + b % SECTOR < SECTOR
  {
    AgainSector(q, rq, a, b, error);
    UpdateSector(q, rq, a + b, error);
    SectorsAdd(a, b);
  }

  /** A request of two sectors completed by half a sector twice is still said to start
      where it did, although its first sector is done. */
  lemma SectorLost(q: Limits)
    ensures var rq := FromBio(q, Bio(0, 8, 1024, [Vec(0, 0, 1024)], false, 0, 0, 0, {}, false, false, true, false, 0));
            && RequestInv(q, rq)
            && Again(q, rq, 256, 256, 0).rq.sector == 8 && UpdateRequest(q, rq, 512, 0).rq.sector == 9
  {
    var b := Bio(0, 8, 1024, [Vec(0, 0, 1024)], false, 0, 0, 0, {}, false, false, true, false, 0);
    TotalOne(Vec(0, 0, 1024));
    FromBioKept(q, b);
    var rq := FromBio(q, b);
    AgainSector(q, rq, 256, 256, 0);
    UpdateSector(q, rq, 512, 0);
  }

  // ----- failing as much as may be failed -----------------------------------

  /** The loop of blk_rq_err_bytes: the bios up to the first that lacks a bit. */
  function EagerBytes(bios: seq<Bio>, ff: set<FailFast>): nat {
    if bios == [] || !(ff <= bios[0].ff) then 0 else bios[0].size + EagerBytes(bios[1..], ff)
  }

  /** blk_rq_err_bytes */
  function ErrBytes(rq: Request): nat { if rq.mixed then EagerBytes(rq.bios, rq.ff) else rq.dataLen }

  /** The number of whole bios it covers. */
  function EagerBios(bios: seq<Bio>, ff: set<FailFast>): (k: nat)
    ensures k <= |bios|
  {
    if bios == [] || !(ff <= bios[0].ff) then 0 else 1 + EagerBios(bios[1..], ff)
  }

  lemma {:induction false} EagerIs(bios: seq<Bio>, ff: set<FailFast>)
    ensures var k := EagerBios(bios, ff);
            && EagerBytes(bios, ff) == Prefix(bios, k)
            && (forall i :: 0 <= i < k ==> ff <= bios[i].ff)
            && (k < |bios| ==> !(ff <= bios[k].ff))
  {
    if bios != [] && ff <= bios[0].ff {
      EagerIs(bios[1..], ff);
      PrefixFirst(bios, EagerBios(bios, ff));
    } else {
      assert bios[..0] == [];
    }
  }

  /** Completing whole bios ends them and leaves the others untouched. */
  lemma {:induction false} CompleteWhole(bios: seq<Bio>, k: nat, error: int)
    requires AllHaveBytes(bios) && k <= |bios|
    ensures var d := Complete(bios, Prefix(bios, k), error); |d.ended| == k && d.rest == bios[k..]
  {
    if k > 0 {
      PrefixFirst(bios, k);
      CompleteWhole(bios[1..], k - 1, error);
    } else {
      assert bios[..0] == [];
      if bios != [] {
        assert HasBytes(bios[0]);
        BytesFirst(bios[0].vecs);
      }
    }
  }

  /** How many bios blk_rq_err_bytes covers. */
  function ErrBios(rq: Request): (k: nat)
    ensures k <= |rq.bios|
  {
    if rq.mixed then EagerBios(rq.bios, rq.ff) else |rq.bios|
  }

  lemma PrefixAll(bios: seq<Bio>, k: nat)
    requires AllHaveBytes(bios) && k <= |bios|
    ensures Prefix(bios, k) <= Sum(bios) && (k > 0 ==> Prefix(bios, k) > 0) && Prefix(bios, |bios|) == Sum(bios)
  {
    assert bios[..|bios|] == bios;
    assert bios == bios[..k] + bios[k..];
    SumSplit(bios[..k], bios[k..]);
    StreamLength(bios[..k]);
  }

  /** The bytes are those of one whole bio at least. */
  lemma ErrBytesWhole(rq: Request)
    requires LenIn(rq.bios, rq.dataLen) && BitsIn(rq.bios, rq.ff, rq.mixed)
    ensures var k := ErrBios(rq); k > 0 && 0 < ErrBytes(rq) == Prefix(rq.bios, k) <= rq.dataLen
  {
    EagerIs(rq.bios, rq.ff);
    PrefixAll(rq.bios, ErrBios(rq));
  }

  /** All bios covered want every bit the first one carries, and on a mixed request
      the next one lacks one. */
  lemma ErrBytesCover(rq: Request)
    requires BitsIn(rq.bios, rq.ff, rq.mixed)
    ensures var k := ErrBios(rq);
            && (forall i :: 0 <= i < k ==> rq.bios[0].ff <= Wanted(rq.bios[i]))
            && (rq.mixed && k < |rq.bios| ==> !(rq.bios[0].ff <= rq.bios[k].ff))
  {
    EagerIs(rq.bios, rq.ff);
    MaskIsAll(rq.ff);
  }

  /** Failing that many bytes ends exactly those bios and leaves the rest whole. */
  lemma FailStep(q: Limits, rq: Request, error: int)
    requires RequestInv(q, rq)
    ensures var u := UpdateRequest(q, rq, ErrBytes(rq), error);
            && |u.ended| == ErrBios(rq) && |u.rq.bios| == |rq.bios| - ErrBios(rq)
            && Alike(rq.bios[ErrBios(rq)..], u.rq.bios)
            && (u.rq.bios != [] ==> RequestInv(q, u.rq))
  {
    ErrBytesWhole(rq);
    CompleteWhole(rq.bios, ErrBios(rq), error);
    UpdateMore(q, rq, ErrBytes(rq), error);
    if ErrBytes(rq) < rq.dataLen {
      UpdateIs(q, rq, ErrBytes(rq), error);
      UpdateKept(q, rq, ErrBytes(rq), error);
    }
  }

  /** Failing over and over, as a driver does until blk_update_request says no more. */
  ghost function FailAll(q: Limits, rq: Request, error: int): seq<Ended>
    requires RequestInv(q, rq)
    decreases |rq.bios|
  {
    FailStep(q, rq, error);
    ErrBytesWhole(rq);
    var u := UpdateRequest(q, rq, ErrBytes(rq), error);
    u.ended + if u.rq.bios == [] then [] else FailAll(q, u.rq, error)
  }

  ghost predicate AllFailed(es: seq<Ended>, bios: seq<Bio>, error: int) {
    |es| == |bios| && forall i :: 0 <= i < |es| ==> es[i] == Ended(bios[i].id, error)
  }

  lemma FailedStep(q: Limits, rq: Request, error: int)
    requires RequestInv(q, rq) && error != 0
    ensures AllFailed(UpdateRequest(q, rq, ErrBytes(rq), error).ended, rq.bios[..ErrBios(rq)], error)
  {
    FailStep(q, rq, error);
    UpdateMore(q, rq, ErrBytes(rq), error);
    CompleteEnds(rq.bios, ErrBytes(rq), error);
  }

  lemma FailedAppend(a: seq<Ended>, b: seq<Ended>, bios: seq<Bio>, rest: seq<Bio>, k: nat, error: int)
    requires k <= |bios| && AllFailed(a, bios[..k], error) && AllFailed(b, rest, error) && Alike(bios[k..], rest)
    ensures AllFailed(a + b, bios, error)
  {
    forall i | 0 <= i < |b|
      ensures b[i] == Ended(bios[k + i].id, error)
    {
      AlikeAt(bios[k..], rest, i);
    }
  }

  /** It comes to an end, with every bio ended once, in order, and with the error. */
  lemma {:induction false} FailAllEnds(q: Limits, rq: Request, error: int)
    requires RequestInv(q, rq) && error != 0
    ensures AllFailed(FailAll(q, rq, error), rq.bios, error)
    decreases |rq.bios|
  {
    var u, k := UpdateRequest(q, rq, ErrBytes(rq), error), ErrBios(rq);
    FailStep(q, rq, error);
    ErrBytesWhole(rq);
    FailedStep(q, rq, error);
    if u.rq.bios == [] {
      FailedAppend(u.ended, [], rq.bios, [], k, error);
    } else {
      FailAllEnds(q, u.rq, error);
      FailedAppend(u.ended, FailAll(q, u.rq, error), rq.bios, u.rq.bios, k, error);
    }
  }
}
