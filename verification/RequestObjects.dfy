/**
 struct request as the object the block layer updates in place, with the functions
 of blk-merge.c and blk-core.c as its methods.  Each is tied to the function that
 RequestInvariant, RequestCompletion and RequestRuns reason about.
 */
module RequestObjects {
  import opened Segments
  import opened RequestModel
  import opened RequestInvariant
  import opened RequestCompletion

  // ----- the loops ----------------------------------------------------------

  /** blk_recount_segments */
  method RecountBio(q: Limits, b: Bio) returns (r: Bio)
    ensures r == Recounted(q, b)
  {
    var rc := RecalcSegments(q, b.vecs);
    r := b.(counted := true, segs := rc.segs, front := if rc.first > b.front then rc.first else b.front,
            back := if rc.last > b.back then rc.last else b.back);
  }

  method ChainVecs(bios: seq<Bio>) returns (vs: seq<Vec>)
    ensures vs == Vecs(bios)
  {
    vs := [];
    for i := 0 to |bios|
      invariant vs == Vecs(bios[..i])
    {
      assert bios[..i + 1][..i] == bios[..i];
      vs := vs + bios[i].vecs;
    }
    assert bios[..|bios|] == bios;
  }

  /** The loop of blk_rq_set_mixed_merge. */
  method SpreadBits(bios: seq<Bio>, ff: set<FailFast>) returns (r: seq<Bio>)
    ensures r == Spread(bios, ff)
  {
    r := bios;
    for i := 0 to |bios|
      invariant |r| == |bios|
      invariant forall k :: 0 <= k < i ==> r[k] == bios[k].(ff := bios[k].ff + ff)
      invariant forall k :: i <= k < |bios| ==> r[k] == bios[k]
    {
      r := r[i := r[i].(ff := r[i].ff + ff)];
    }
  }

  /** The loop of blk_rq_err_bytes. */
  method CountEager(bios: seq<Bio>, ff: set<FailFast>) returns (bytes: nat)
    ensures bytes == EagerBytes(bios, ff)
  {
    bytes := 0;
    var i := 0;
    while i < |bios| && ff <= bios[i].ff
      invariant 0 <= i <= |bios|
      invariant EagerBytes(bios, ff) == bytes + EagerBytes(bios[i..], ff)
      decreases |bios| - i
    {
      assert bios[i..][1..] == bios[i + 1..];
      bytes := bytes + bios[i].size;
      i := i + 1;
    }
  }

  /** Where the cut of a partly completed bio falls. */
  lemma {:induction false} DropVecsAt(vs: seq<Vec>, k: nat, cut: nat)
    requires k < |vs| && cut < vs[k].len && Positive(vs)
    ensures DropVecs(vs, Total(vs[..k]) + cut) ==
            [vs[k].(offset := vs[k].offset + cut, len := vs[k].len - cut)] + vs[k + 1..]
  {
    if k == 0 {
      assert vs[..0] == [];
      assert vs == [vs[0]] + vs[1..];
    } else {
      BytesFirst(vs[..k]);
      assert vs[..k][1..] == vs[1..][..k - 1];
      DropVecsAt(vs[1..], k - 1, cut);
    }
  }

  /** The loop's variables inside the first bio of `bios`: `idx` bio_vecs and `done`
      bytes of it are passed, and `n` bytes are left to complete. */
  ghost predicate Within(bios: seq<Bio>, idx: nat, done: nat, n: nat) {
    && (bios == [] ==> idx == 0 && done == 0)
    && (bios != [] ==> idx <= |bios[0].vecs| && done == Total(bios[0].vecs[..idx]))
    && (idx > 0 ==> bios != [] && done + n < bios[0].size)
  }

  lemma NextVec(b: Bio, idx: nat, n: nat)
    requires HasBytes(b) && idx <= |b.vecs| && Total(b.vecs[..idx]) + n < b.size
    ensures idx < |b.vecs| && Total(b.vecs[..idx + 1]) == Total(b.vecs[..idx]) + b.vecs[idx].len
  {
    assert b.vecs[..|b.vecs|] == b.vecs;
    if idx < |b.vecs| {
      assert b.vecs[..idx + 1][..idx] == b.vecs[..idx];
    }
  }

  /** A whole bio goes from the rest to the ended ones. */
  lemma LoopWhole(rest: seq<Bio>, n: nat, ended: seq<Ended>, error: int)
    requires rest != [] && n >= rest[0].size
    ensures var e, d := Ended(rest[0].id, Status(rest[0], error)), Complete(rest[1..], n - rest[0].size, error);
            ended + Complete(rest, n, error).ended == ended + [e] + d.ended && Complete(rest, n, error).rest == d.rest
  {
    var e, d := Ended(rest[0].id, Status(rest[0], error)), Complete(rest[1..], n - rest[0].size, error);
    assert Complete(rest, n, error) == Done([e] + d.ended, d.rest);
    assert ended + ([e] + d.ended) == ended + [e] + d.ended;
  }

  /** The loop of blk_update_request: which bios end, how many bytes are done, and
      where in the first bio left the rest begins. */
  method CompleteLoop(bios: seq<Bio>, n: nat, error: int)
      returns (ended: seq<Ended>, rest: seq<Bio>, total: nat, idx: nat, done: nat, cut: nat)
    requires AllHaveBytes(bios)
    ensures Complete(bios, n, error) == Done(ended + Complete(rest, done, error).ended, Complete(rest, done, error).rest)
    ensures rest == [] ==> done == 0
    ensures rest != [] ==> done < rest[0].size && total == n && idx < |rest[0].vecs|
                           && cut < rest[0].vecs[idx].len && done == Total(rest[0].vecs[..idx]) + cut
    ensures AllHaveBytes(rest)
  {
    ended, rest, total, idx, done, cut := [], bios, 0, 0, 0, n;
    while rest != []
      invariant AllHaveBytes(rest) && total + cut == n
      invariant Within(rest, idx, done, cut)
      invariant Complete(bios, n, error) ==
                Done(ended + Complete(rest, done + cut, error).ended, Complete(rest, done + cut, error).rest)
      decreases |rest|, cut
    {
      var b := rest[0];
      assert HasBytes(b);
      var nbytes: nat;
      if cut >= b.size {
        LoopWhole(rest, cut, ended, error);
        rest := rest[1..];
        nbytes := b.size;
        ended := ended + [Ended(b.id, Status(b, error))];
        idx, done := 0, 0;
      } else {
        NextVec(b, idx, cut);
        nbytes := b.vecs[idx].len;
        if nbytes > cut {
          done := done + cut;
          total := total + cut;
          return;
        }
        idx := idx + 1;
        done := done + nbytes;
      }
      total := total + nbytes;
      cut := cut - nbytes;
      if rest != [] && cut <= 0 {
        if idx > 0 {
          NextVec(rest[0], idx, 0);
        }
        return;
      }
    }
  }

  /** The bio in which the completion ended is left with the rest of its bytes. */
  method CutFirst(bios: seq<Bio>, idx: nat, done: nat, cut: nat, error: int) returns (r: seq<Bio>)
    requires AllHaveBytes(bios) && bios != [] && done < bios[0].size
    requires idx < |bios[0].vecs| && cut < bios[0].vecs[idx].len && done == Total(bios[0].vecs[..idx]) + cut
    ensures Complete(bios, done, error) == Done([], r) && r != []
  {
    r := bios;
    if done > 0 {
      var b := bios[0];
      assert HasBytes(b);
      DropVecsAt(b.vecs, idx, cut);
      var v := b.vecs[idx];
      r := [b.(uptodate := b.uptodate && error == 0, size := b.size - done, sector := b.sector + done / SECTOR,
               vecs := [v.(offset := v.offset + cut, len := v.len - cut)] + b.vecs[idx + 1..])] + bios[1..];
    }
  }

  /** The loop, and what it leaves of the bio it ended in. */
  method CompleteBytes(bios: seq<Bio>, n: nat, error: int) returns (ended: seq<Ended>, rest: seq<Bio>, total: nat)
    requires AllHaveBytes(bios)
    ensures Done(ended, rest) == Complete(bios, n, error)
    ensures rest != [] ==> total == n
  {
    var idx, done, cut;
    ended, rest, total, idx, done, cut := CompleteLoop(bios, n, error);
    if rest != [] {
      ghost var at := rest;
      rest := CutFirst(rest, idx, done, cut, error);
      assert ended + Complete(at, done, error).ended == ended;
    } else {
      assert ended + Complete(rest, done, error).ended == ended;
    }
  }

  // ----- the object ---------------------------------------------------------

  lemma MergeFacts(q: Limits, rq: Request, bio: Bio, back: bool)
    requires RequestInv(q, rq) && BioOk(q, bio)
    ensures RequestInv(q, Merged(q, rq, bio, back)) && BioOk(q, TryMerge(q, rq, bio, back).bio)
    ensures ChainInv(rq) && bio.size % SECTOR == 0 && Adjacent(rq, bio, back) ==> ChainInv(Merged(q, rq, bio, back))
  {
    MergeKept(q, rq, bio, back);
    if ChainInv(rq) && bio.size % SECTOR == 0 && Adjacent(rq, bio, back) {
      MergeChain(q, rq, bio, back);
    }
    TryMergeIs(q, rq, bio, back);
    CountedOk(q, bio);
  }

  class RequestObject {
    var bios: seq<Bio>
    var sector: nat
    var dataLen: nat
    var segs: nat
    var ff: set<FailFast>
    var mixed: bool
    var write: bool
    var disk: nat
    var special: bool
    var noMerge: bool
    var started: bool

    function View(): Request
      reads this
    {
      Request(bios, sector, dataLen, segs, ff, mixed, write, disk, special, noMerge, started)
    }

    /** init_request_from_bio and blk_rq_bio_prep */
    constructor (q: Limits, bio: Bio)
      ensures View() == FromBio(q, bio)
    {
      var b := bio;
      if !bio.counted {
        b := RecountBio(q, bio);
      }
      bios, sector, dataLen, segs := [b], b.sector, b.size, b.segs;
      ff := if b.ahead then FailFastMask() else b.ff;
      mixed, write, disk, special, noMerge, started := false, b.write, b.disk, false, b.barrier, false;
    }

    /** ll_back_merge_fn and ll_front_merge_fn */
    method TryMergeBio(q: Limits, bio: Bio, back: bool) returns (ok: bool, b: Bio)
      requires bios != []
      modifies this
      ensures Attempt(ok, View(), b) == TryMerge(q, old(View()), bio, back)
    {
      b := bio;
      if dataLen / SECTOR + bio.size / SECTOR > q.maxSectors {
        noMerge := true;
        return false, b;
      }
      CountEndBio(q, back);
      if !bio.counted {
        b := RecountBio(q, bio);
      }
      ok := NewHwSegment(q, b.segs);
    }

    /** ll_new_hw_segment */
    method NewHwSegment(q: Limits, n: nat) returns (ok: bool)
      modifies this`segs, this`noMerge
      ensures ok == !TooMany(q, old(segs) + n)
      ensures View() == if ok then old(View()).(segs := old(segs) + n) else old(View()).(noMerge := true)
    {
      if segs + n > q.maxHwSegments || segs + n > q.maxPhysSegments {
        noMerge := true;
        return false;
      }
      segs := segs + n;
      ok := true;
    }

    method CountEndBio(q: Limits, back: bool)
      requires bios != []
      modifies this`bios
      ensures View() == old(View()).(bios := CountEnd(q, old(bios), back))
    {
      var i := if back then |bios| - 1 else 0;
      if !bios[i].counted {
        var c := RecountBio(q, bios[i]);
        bios := bios[i := c];
      }
    }

    /** blk_rq_set_mixed_merge */
    method SetMixedMerge()
      modifies this`bios, this`mixed
      ensures View() == SetMixed(old(View()))
    {
      if mixed {
        return;
      }
      bios := SpreadBits(bios, ff);
      mixed := true;
    }

    /** ELEVATOR_BACK_MERGE in __make_request, after ll_back_merge_fn agreed. */
    method LinkBack(b: Bio)
      modifies this
      ensures View() == Joined(old(View()), b, true)
    {
      if ff != b.ff {
        SetMixedMerge();
      }
      bios := bios + [b];
      dataLen := dataLen + b.size;
    }

    /** ELEVATOR_FRONT_MERGE */
    method LinkFront(b: Bio)
      modifies this
      ensures View() == Joined(old(View()), b, false)
    {
      if ff != b.ff {
        SetMixedMerge();
        ff := b.ff;
      }
      bios := [b] + bios;
      sector := b.sector;
      dataLen := dataLen + b.size;
    }

    /** ELEVATOR_BACK_MERGE and ELEVATOR_FRONT_MERGE: the bio becomes part of the request
        or, if that is refused, is given back counted. */
    method MergeBio(q: Limits, bio: Bio, back: bool) returns (ok: bool, b: Bio)
      requires RequestInv(q, View()) && BioOk(q, bio)
      modifies this
      ensures RequestInv(q, View()) && View() == Merged(q, old(View()), bio, back)
      ensures ok == TryMerge(q, old(View()), bio, back).ok && BioOk(q, b)
      ensures old(ChainInv(View())) && bio.size % SECTOR == 0 && Adjacent(old(View()), bio, back) ==> ChainInv(View())
    {
      MergeFacts(q, View(), bio, back);
      ok, b := TryMergeBio(q, bio, back);
      if ok {
        if back {
          LinkBack(b);
        } else {
          LinkFront(b);
        }
      }
    }

    /** ll_merge_requests_fn */
    method TryMergeNext(q: Limits, next: RequestObject) returns (ok: bool)
      requires next != this && HasData(View()) && HasData(next.View())
      modifies this`bios, this`segs, next`bios
      ensures Pair(ok, View(), next.View()) == TryMergeRequests(q, old(View()), old(next.View()))
    {
      var a, b := bios[|bios| - 1], next.bios[0];
      var size := a.back + b.front;
      if special || next.special {
        return false;
      }
      if dataLen / SECTOR + next.dataLen / SECTOR > q.maxSectors {
        return false;
      }
      var total := segs + next.segs;
      if Contiguous(q, a, b) {
        if segs == 1 {
          bios := SetFront(bios, size);
        }
        if next.segs == 1 {
          next.bios := SetBack(next.bios, size);
        }
        total := total - 1;
      }
      if total > q.maxPhysSegments {
        return false;
      }
      if total > q.maxHwSegments {
        return false;
      }
      segs := total;
      ok := true;
    }

    /** attempt_merge */
    method TakeIn(q: Limits, next: RequestObject) returns (ok: bool)
      requires next != this && HasData(View()) && HasData(next.View())
      modifies this, next
      ensures Pair(ok, View(), next.View()) == AttemptMerge(q, old(View()), old(next.View()))
    {
      if noMerge || started || next.noMerge || next.started {
        return false;
      }
      if sector + dataLen / SECTOR != next.sector {
        return false;
      }
      if write != next.write || disk != next.disk || next.special {
        return false;
      }
      ok := TryMergeNext(q, next);
      if !ok {
        return;
      }
      Link(next);
    }

    method Link(next: RequestObject)
      requires next != this
      modifies this, next
      ensures var r, n := old(View()), old(next.View());
              var mix := r.mixed || n.mixed || r.ff != n.ff;
              var r1, n1 := MixedIf(r, mix), MixedIf(n, mix);
              View() == r1.(bios := r1.bios + n1.bios, dataLen := r1.dataLen + n1.dataLen) && next.View() == n1.(bios := [])
    {
      if mixed || next.mixed || ff != next.ff {
        SetMixedMerge();
        next.SetMixedMerge();
      }
      bios := bios + next.bios;
      dataLen := dataLen + next.dataLen;
      next.bios := [];
    }

    /** blk_rq_err_bytes; its BUG_ON cannot fire. */
    method ErrBytesOf() returns (bytes: nat)
      requires LenIn(bios, dataLen) && BitsIn(bios, ff, mixed)
      ensures bytes == ErrBytes(View()) && bytes > 0
    {
      ErrBytesWhole(View());
      if !mixed {
        return dataLen;
      }
      bytes := CountEager(bios, ff);
    }

    /** blk_recalc_rq_segments */
    method Recalc(q: Limits)
      requires bios != []
      modifies this`bios, this`segs
      ensures View() == Recalculated(q, old(View()))
    {
      var vs := ChainVecs(bios);
      var rc := RecalcSegments(q, vs);
      bios := bios[0 := bios[0].(front := Max(bios[0].front, rc.first))];
      var n := |bios| - 1;
      bios := bios[n := bios[n].(back := Max(bios[n].back, rc.last))];
      segs := rc.segs;
    }

    /** blk_update_request */
    method UpdateBytes(q: Limits, n: nat, error: int) returns (more: bool, ended: seq<Ended>)
      requires LenIn(bios, dataLen)
      modifies this
      ensures Update(more, View(), ended) == UpdateRequest(q, old(View()), n, error)
    {
      var rest, total;
      ended, rest, total := CompleteBytes(bios, n, error);
      LeftOver(bios, n, error);
      if rest == [] {
        bios := [];
        dataLen := 0;
        return false, ended;
      }
      Leave(rest, total);
      Recalc(q);
      more := true;
    }

    /** The fields blk_update_request sets on a request that is not done. */
    method Leave(rest: seq<Bio>, total: nat)
      requires rest != [] && total <= dataLen
      modifies this
      ensures View() == old(View()).(bios := rest, dataLen := old(dataLen) - total, sector := old(sector) + total / SECTOR,
                                     ff := if old(mixed) then rest[0].ff else old(ff))
    {
      bios := rest;
      dataLen := dataLen - total;
      sector := sector + total / SECTOR;
      if mixed {
        ff := bios[0].ff;
      }
    }
  }
}
