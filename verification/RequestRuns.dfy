/**
 Everything that happens to the requests of a queue, in any order: bios are
 submitted, merged or given a request of their own; requests are started and
 completed piece by piece.  What the single steps keep holds after every run.
 */
module RequestRuns {
  import opened Segments
  import opened RequestModel
  import opened RequestInvariant
  import opened RequestCompletion

  /** What elv_merge answers, and the neighbour the elevator then names; an index
      that is no other request stands for none. */
  datatype Choice = Fresh | Merge(at: nat, back: bool, neighbour: nat)

  datatype Event = Submit(bio: Bio, choice: Choice) | Start(at: nat) | Finish(at: nat, bytes: nat, error: int)

  datatype Queue = Queue(requests: seq<Request>, ended: seq<Ended>)

  ghost predicate AllKept(q: Limits, rs: seq<Request>) { forall i :: 0 <= i < |rs| ==> RequestInv(q, rs[i]) }

  function Remove<T>(s: seq<T>, i: nat): seq<T>
    requires i < |s|
  {
    s[..i] + s[i + 1..]
  }

  // ----- the steps ----------------------------------------------------------

  /** attempt_back_merge and attempt_front_merge: rs[y] is taken into rs[x]. */
  ghost function Coalesce(q: Limits, rs: seq<Request>, x: nat, y: nat): seq<Request>
    requires AllKept(q, rs) && x < |rs| && y < |rs| && x != y
  {
    RequestHasData(q, rs[x]);
    RequestHasData(q, rs[y]);
    var p := AttemptMerge(q, rs[x], rs[y]);
    if p.ok then Remove(rs[x := p.req], y) else rs[x := p.req][y := p.next]
  }

  predicate Proposed(rs: seq<Request>, bio: Bio, c: Choice) {
    c.Merge? && c.at < |rs| && !bio.barrier && rs[c.at].bios != [] && MergeOk(rs[c.at], bio) && Adjacent(rs[c.at], bio, c.back)
  }

  /** __make_request */
  ghost function MakeRequest(q: Limits, rs: seq<Request>, bio: Bio, c: Choice): seq<Request>
    requires AllKept(q, rs) && BioOk(q, bio)
  {
    if !Proposed(rs, bio, c) then rs + [FromBio(q, bio)]
    else
      var a := TryMerge(q, rs[c.at], bio, c.back);
      MergeKept(q, rs[c.at], bio, c.back);
      var merged := rs[c.at := Merged(q, rs[c.at], bio, c.back)];
      if !a.ok then merged + [FromBio(q, a.bio)]
      else Meet(q, merged, c)
  }

  /** The request that has grown is merged with the neighbour, if there is one and
      attempt_merge agrees. */
  ghost function Meet(q: Limits, rs: seq<Request>, c: Choice): seq<Request>
    requires AllKept(q, rs) && c.Merge? && c.at < |rs|
  {
    if c.neighbour >= |rs| || c.neighbour == c.at then rs
    else if c.back then Coalesce(q, rs, c.at, c.neighbour)
    else Coalesce(q, rs, c.neighbour, c.at)
  }

  /** A request leaves the queue when its last bytes are done. */
  function LeftOf(rs: seq<Request>, i: nat, u: Update): seq<Request>
    requires i < |rs|
  {
    if u.more then rs[i := u.rq] else Remove(rs, i)
  }

  ghost function Step(q: Limits, s: Queue, e: Event): Queue
    requires AllKept(q, s.requests) && (e.Submit? ==> BioOk(q, e.bio))
  {
    match e
    case Submit(bio, c) => s.(requests := MakeRequest(q, s.requests, bio, c))
    case Start(i) =>
      if i < |s.requests| then s.(requests := s.requests[i := s.requests[i].(started := true)]) else s
    case Finish(i, n, error) =>
      if i < |s.requests| && s.requests[i].started then
        var u := UpdateRequest(q, s.requests[i], n, error);
        Queue(LeftOf(s.requests, i, u), s.ended + u.ended)
      else s
  }

  // ----- every request keeps its invariant ----------------------------------

  lemma SetKept(q: Limits, rs: seq<Request>, i: nat, r: Request)
    requires AllKept(q, rs) && i < |rs| && RequestInv(q, r)
    ensures AllKept(q, rs[i := r])
  {
  }

  lemma RemoveKept(q: Limits, rs: seq<Request>, i: nat)
    requires AllKept(q, rs) && i < |rs|
    ensures AllKept(q, Remove(rs, i))
  {
  }

  lemma CoalesceKept(q: Limits, rs: seq<Request>, x: nat, y: nat)
    requires AllKept(q, rs) && x < |rs| && y < |rs| && x != y
    ensures AllKept(q, Coalesce(q, rs, x, y))
  {
    RequestHasData(q, rs[x]);
    RequestHasData(q, rs[y]);
    var p := AttemptMerge(q, rs[x], rs[y]);
    if p.ok {
      AcceptedKept(q, rs[x], rs[y]);
      SetKept(q, rs, x, p.req);
      RemoveKept(q, rs[x := p.req], y);
    } else {
      RefusedKept(q, rs[x], rs[y]);
      SetKept(q, rs, x, p.req);
      SetKept(q, rs[x := p.req], y, p.next);
    }
  }

  lemma FreshKept(q: Limits, rs: seq<Request>, bio: Bio)
    requires AllKept(q, rs) && BioOk(q, bio)
    ensures AllKept(q, rs + [FromBio(q, bio)])
  {
    FromBioKept(q, bio);
  }

  lemma MeetKept(q: Limits, rs: seq<Request>, c: Choice)
    requires AllKept(q, rs) && c.Merge? && c.at < |rs|
    ensures AllKept(q, Meet(q, rs, c))
  {
    if c.neighbour < |rs| && c.neighbour != c.at {
      if c.back {
        CoalesceKept(q, rs, c.at, c.neighbour);
      } else {
        CoalesceKept(q, rs, c.neighbour, c.at);
      }
    }
  }

  lemma TriedKept(q: Limits, rs: seq<Request>, bio: Bio, i: nat, back: bool)
    requires AllKept(q, rs) && BioOk(q, bio) && i < |rs|
    ensures AllKept(q, rs[i := Merged(q, rs[i], bio, back)])
  {
    MergeKept(q, rs[i], bio, back);
    SetKept(q, rs, i, Merged(q, rs[i], bio, back));
  }

  /** The bio given back is the one given, counted. */
  lemma TriedBio(q: Limits, rq: Request, bio: Bio, back: bool)
    requires rq.bios != [] && BioOk(q, bio)
    ensures var b := TryMerge(q, rq, bio, back).bio; BioOk(q, b) && b.id == bio.id && b.size == bio.size
  {
    TryMergeIs(q, rq, bio, back);
    CountedOk(q, bio);
  }

  lemma MakeRequestKept(q: Limits, rs: seq<Request>, bio: Bio, c: Choice)
    requires AllKept(q, rs) && BioOk(q, bio)
    ensures AllKept(q, MakeRequest(q, rs, bio, c))
  {
    if !Proposed(rs, bio, c) {
      FreshKept(q, rs, bio);
    } else {
      TriedKept(q, rs, bio, c.at, c.back);
      TriedBio(q, rs[c.at], bio, c.back);
      var a, merged := TryMerge(q, rs[c.at], bio, c.back), rs[c.at := Merged(q, rs[c.at], bio, c.back)];
      if a.ok {
        MeetKept(q, merged, c);
      } else {
        FreshKept(q, merged, a.bio);
      }
    }
  }

  lemma FinishKept(q: Limits, s: Queue, i: nat, n: nat, error: int)
    requires AllKept(q, s.requests)
    ensures AllKept(q, Step(q, s, Finish(i, n, error)).requests)
  {
    if i < |s.requests| && s.requests[i].started {
      UpdateMore(q, s.requests[i], n, error);
      if n < s.requests[i].dataLen {
        UpdateKept(q, s.requests[i], n, error);
      }
    }
  }

  lemma StepKept(q: Limits, s: Queue, e: Event)
    requires AllKept(q, s.requests) && (e.Submit? ==> BioOk(q, e.bio))
    ensures AllKept(q, Step(q, s, e).requests)
  {
    match e {
      case Submit(bio, c) => MakeRequestKept(q, s.requests, bio, c);
      case Start(i) =>
      case Finish(i, n, error) => FinishKept(q, s, i, n, error);
    }
  }

  // ----- no bio is lost or doubled ------------------------------------------

  /** How often a bio is on a chain, among ended bios, and on the requests. */
  function Times(bios: seq<Bio>, id: nat): nat { multiset(Ids(bios))[id] }

  function TimesEnded(es: seq<Ended>, id: nat): nat { multiset(EndedIds(es))[id] }

  function OnRequests(rs: seq<Request>, id: nat): nat {
    if rs == [] then 0 else Times(rs[0].bios, id) + OnRequests(rs[1..], id)
  }

  lemma {:induction false} OnSplit(a: seq<Request>, b: seq<Request>, id: nat)
    ensures OnRequests(a + b, id) == OnRequests(a, id) + OnRequests(b, id)
  {
    if a == [] {
      assert a + b == b;
    } else {
      OnSplit(a[1..], b, id);
      assert (a + b)[1..] == a[1..] + b;
    }
  }

  lemma OnThree(a: seq<Request>, r: Request, b: seq<Request>, id: nat)
    ensures OnRequests(a + [r] + b, id) == OnRequests(a + b, id) + Times(r.bios, id)
  {
    OnSplit(a + [r], b, id);
    OnSplit(a, [r], id);
    OnSplit(a, b, id);
  }

  lemma OnReplace(rs: seq<Request>, i: nat, r: Request, id: nat)
    requires i < |rs|
    ensures OnRequests(rs[i := r], id) == OnRequests(rs, id) - Times(rs[i].bios, id) + Times(r.bios, id)
  {
    assert rs == rs[..i] + [rs[i]] + rs[i + 1..];
    assert rs[i := r] == rs[..i] + [r] + rs[i + 1..];
    OnThree(rs[..i], r, rs[i + 1..], id);
    OnThree(rs[..i], rs[i], rs[i + 1..], id);
  }

  lemma OnRemove(rs: seq<Request>, i: nat, id: nat)
    requires i < |rs|
    ensures OnRequests(Remove(rs, i), id) == OnRequests(rs, id) - Times(rs[i].bios, id)
  {
    assert rs == rs[..i] + [rs[i]] + rs[i + 1..];
    OnThree(rs[..i], rs[i], rs[i + 1..], id);
  }

  lemma OnTakenIn(rs: seq<Request>, x: nat, y: nat, r: Request, id: nat)
    requires x < |rs| && y < |rs| && x != y && Times(r.bios, id) == Times(rs[x].bios, id) + Times(rs[y].bios, id)
    ensures OnRequests(Remove(rs[x := r], y), id) == OnRequests(rs, id)
  {
    OnReplace(rs, x, r, id);
    OnRemove(rs[x := r], y, id);
  }

  lemma SameTimes(a: seq<Bio>, b: seq<Bio>, id: nat)
    requires SameData(a, b)
    ensures Times(a, id) == Times(b, id)
  {
    assert Ids(a) == Ids(b);
  }

  lemma LinkedTimes(a: seq<Bio>, b: seq<Bio>, id: nat)
    ensures Times(a + b, id) == Times(a, id) + Times(b, id)
  {
    assert Ids(a + b) == Ids(a) + Ids(b);
  }

  lemma AcceptedTimes(q: Limits, req: Request, next: Request, id: nat)
    requires RequestInv(q, req) && RequestInv(q, next) && HasData(req) && HasData(next) && AttemptMerge(q, req, next).ok
    ensures Times(AttemptMerge(q, req, next).req.bios, id) == Times(req.bios, id) + Times(next.bios, id)
  {
    AcceptedData(q, req, next);
    SameTimes(req.bios + next.bios, AttemptMerge(q, req, next).req.bios, id);
    LinkedTimes(req.bios, next.bios, id);
  }

  lemma RefusedTimes(q: Limits, req: Request, next: Request, id: nat)
    requires RequestInv(q, req) && RequestInv(q, next) && HasData(req) && HasData(next) && !AttemptMerge(q, req, next).ok
    ensures var p := AttemptMerge(q, req, next);
            Times(p.req.bios, id) == Times(req.bios, id) && Times(p.next.bios, id) == Times(next.bios, id)
  {
    var p := AttemptMerge(q, req, next);
    RefusedKept(q, req, next);
    SameTimes(req.bios, p.req.bios, id);
    SameTimes(next.bios, p.next.bios, id);
  }

  lemma CoalesceTimes(q: Limits, rs: seq<Request>, x: nat, y: nat, id: nat)
    requires AllKept(q, rs) && x < |rs| && y < |rs| && x != y
    ensures OnRequests(Coalesce(q, rs, x, y), id) == OnRequests(rs, id)
  {
    RequestHasData(q, rs[x]);
    RequestHasData(q, rs[y]);
    var p := AttemptMerge(q, rs[x], rs[y]);
    if p.ok {
      AcceptedTimes(q, rs[x], rs[y], id);
      OnTakenIn(rs, x, y, p.req, id);
    } else {
      RefusedTimes(q, rs[x], rs[y], id);
      OnReplace(rs, x, p.req, id);
      OnReplace(rs[x := p.req], y, p.next, id);
    }
  }

  lemma JoinedTimes(rq: Request, b: Bio, back: bool, id: nat)
    requires BitsIn(rq.bios, rq.ff, rq.mixed)
    ensures Times(Joined(rq, b, back).bios, id) == Times(rq.bios, id) + Times([b], id)
  {
    var m := Readied(rq, b.ff);
    ReadiedKept(rq, b.ff);
    ReadiedIs(rq, b, back);
    SameTimes(rq.bios, m.bios, id);
    LinkedTimes(m.bios, [b], id);
    LinkedTimes([b], m.bios, id);
  }

  lemma OneTimes(a: Bio, b: Bio, id: nat)
    requires a.id == b.id
    ensures Times([a], id) == Times([b], id) == if id == a.id then 1 else 0
  {
    assert Ids([a]) == [a.id] && Ids([b]) == [b.id];
  }

  /** The request a merge was tried on has the bio, too, if it succeeded. */
  lemma MergedTimes(q: Limits, rq: Request, bio: Bio, back: bool, id: nat)
    requires RequestInv(q, rq) && BioOk(q, bio)
    ensures Times(Merged(q, rq, bio, back).bios, id) ==
            Times(rq.bios, id) + if TryMerge(q, rq, bio, back).ok then Times([bio], id) else 0
  {
    var a := TryMerge(q, rq, bio, back);
    TryMergeKept(q, rq, bio, back);
    TryMergeIs(q, rq, bio, back);
    SameTimes(rq.bios, a.rq.bios, id);
    OneTimes(bio, a.bio, id);
    if a.ok {
      JoinedTimes(a.rq, a.bio, back, id);
    }
  }

  lemma FreshTimes(q: Limits, rs: seq<Request>, bio: Bio, id: nat)
    ensures OnRequests(rs + [FromBio(q, bio)], id) == OnRequests(rs, id) + Times([bio], id)
  {
    OnSplit(rs, [FromBio(q, bio)], id);
    OneTimes(bio, Counted(q, bio), id);
  }

  lemma MeetTimes(q: Limits, rs: seq<Request>, c: Choice, id: nat)
    requires AllKept(q, rs) && c.Merge? && c.at < |rs|
    ensures OnRequests(Meet(q, rs, c), id) == OnRequests(rs, id)
  {
    if c.neighbour < |rs| && c.neighbour != c.at {
      if c.back {
        CoalesceTimes(q, rs, c.at, c.neighbour, id);
      } else {
        CoalesceTimes(q, rs, c.neighbour, c.at, id);
      }
    }
  }

  lemma TriedTimes(q: Limits, rs: seq<Request>, bio: Bio, i: nat, back: bool, id: nat)
    requires AllKept(q, rs) && BioOk(q, bio) && i < |rs|
    ensures OnRequests(rs[i := Merged(q, rs[i], bio, back)], id) ==
            OnRequests(rs, id) + if TryMerge(q, rs[i], bio, back).ok then Times([bio], id) else 0
  {
    MergedTimes(q, rs[i], bio, back, id);
    OnReplace(rs, i, Merged(q, rs[i], bio, back), id);
  }

  lemma MakeRequestTimes(q: Limits, rs: seq<Request>, bio: Bio, c: Choice, id: nat)
    requires AllKept(q, rs) && BioOk(q, bio)
    ensures OnRequests(MakeRequest(q, rs, bio, c), id) == OnRequests(rs, id) + Times([bio], id)
  {
    if !Proposed(rs, bio, c) {
      FreshTimes(q, rs, bio, id);
    } else {
      var a, merged := TryMerge(q, rs[c.at], bio, c.back), rs[c.at := Merged(q, rs[c.at], bio, c.back)];
      TriedKept(q, rs, bio, c.at, c.back);
      TriedTimes(q, rs, bio, c.at, c.back, id);
      if a.ok {
        MeetTimes(q, merged, c, id);
      } else {
        TriedBio(q, rs[c.at], bio, c.back);
        OneTimes(bio, a.bio, id);
        FreshTimes(q, merged, a.bio, id);
      }
    }
  }

  /** How often the queue knows a bio, on a request or as ended. */
  function Known(s: Queue, id: nat): nat { OnRequests(s.requests, id) + TimesEnded(s.ended, id) }

  lemma StepTimes(q: Limits, s: Queue, e: Event, id: nat)
    requires AllKept(q, s.requests) && (e.Submit? ==> BioOk(q, e.bio))
    ensures Known(Step(q, s, e), id) == Known(s, id) + if e.Submit? then Times([e.bio], id) else 0
  {
    match e {
      case Submit(bio, c) => MakeRequestTimes(q, s.requests, bio, c, id);
      case Start(i) =>
        if i < |s.requests| {
          OnReplace(s.requests, i, s.requests[i].(started := true), id);
        }
      case Finish(i, n, error) =>
        if i < |s.requests| && s.requests[i].started {
          FinishTimes(q, s, i, n, error, id);
        }
    }
  }

  /** An update ends what it takes off the request. */
  lemma UpdateTimes(q: Limits, rq: Request, n: nat, error: int, id: nat)
    requires LenIn(rq.bios, rq.dataLen)
    ensures var u := UpdateRequest(q, rq, n, error);
            && Times(rq.bios, id) == TimesEnded(u.ended, id) + Times(u.rq.bios, id)
            && (!u.more ==> Times(u.rq.bios, id) == 0)
  {
    var u, d := UpdateRequest(q, rq, n, error), Complete(rq.bios, n, error);
    UpdateMore(q, rq, n, error);
    CompleteIds(rq.bios, n, error);
    LeftOver(rq.bios, n, error);
    if n < rq.dataLen {
      UpdateIs(q, rq, n, error);
    }
    assert Ids(d.rest) == Ids(u.rq.bios);
  }

  lemma EndedTimes(a: seq<Ended>, b: seq<Ended>, id: nat)
    ensures TimesEnded(a + b, id) == TimesEnded(a, id) + TimesEnded(b, id)
  {
    assert EndedIds(a + b) == EndedIds(a) + EndedIds(b);
  }

  lemma LeftTimes(rs: seq<Request>, i: nat, u: Update, id: nat)
    requires i < |rs| && Times(rs[i].bios, id) == TimesEnded(u.ended, id) + Times(u.rq.bios, id)
    requires !u.more ==> Times(u.rq.bios, id) == 0
    ensures OnRequests(LeftOf(rs, i, u), id) + TimesEnded(u.ended, id) == OnRequests(rs, id)
  {
    if u.more {
      OnReplace(rs, i, u.rq, id);
    } else {
      OnRemove(rs, i, id);
    }
  }

  lemma FinishIs(q: Limits, s: Queue, i: nat, n: nat, error: int)
    requires AllKept(q, s.requests) && i < |s.requests| && s.requests[i].started
    ensures var u := UpdateRequest(q, s.requests[i], n, error);
            Step(q, s, Finish(i, n, error)) == Queue(LeftOf(s.requests, i, u), s.ended + u.ended)
  {
  }

  lemma FinishTimes(q: Limits, s: Queue, i: nat, n: nat, error: int, id: nat)
    requires AllKept(q, s.requests) && i < |s.requests| && s.requests[i].started
    ensures Known(Step(q, s, Finish(i, n, error)), id) == Known(s, id)
  {
    var u := UpdateRequest(q, s.requests[i], n, error);
    FinishIs(q, s, i, n, error);
    EndedTimes(s.ended, u.ended, id);
    assert OnRequests(LeftOf(s.requests, i, u), id) + TimesEnded(u.ended, id) == OnRequests(s.requests, id) by {
      UpdateTimes(q, s.requests[i], n, error, id);
      LeftTimes(s.requests, i, u, id);
    }
  }

  // ----- runs ---------------------------------------------------------------

  /** Bios are submitted with data and, if counted, counted right. */
  ghost predicate Sound(q: Limits, es: seq<Event>) {
    forall i :: 0 <= i < |es| && es[i].Submit? ==> BioOk(q, es[i].bio)
  }

  ghost function Run(q: Limits, es: seq<Event>): (s: Queue)
    requires Sound(q, es)
    ensures AllKept(q, s.requests)
  {
    if es == [] then Queue([], [])
    else
      var s := Run(q, es[..|es| - 1]);
      StepKept(q, s, es[|es| - 1]);
      Step(q, s, es[|es| - 1])
  }

  /** How often a bio was submitted. */
  function Submitted(es: seq<Event>, id: nat): nat {
    if es == [] then 0
    else Submitted(es[..|es| - 1], id) + if es[|es| - 1].Submit? then Times([es[|es| - 1].bio], id) else 0
  }

  /** After any run every bio submitted is on one request, once, or has ended, once. */
  lemma {:induction false} RunTimes(q: Limits, es: seq<Event>, id: nat)
    requires Sound(q, es)
    ensures Known(Run(q, es), id) == Submitted(es, id)
  {
    if es != [] {
      RunTimes(q, es[..|es| - 1], id);
      StepTimes(q, Run(q, es[..|es| - 1]), es[|es| - 1], id);
    }
  }

  /** After any run the scatterlist of every request fits its segment counter. */
  lemma RunSegments(q: Limits, es: seq<Event>, i: nat)
    requires Sound(q, es) && i < |Run(q, es).requests|
    ensures var rq := Run(q, es).requests[i];
            var sg := Entries(Greedy(q, false, Vecs(rq.bios)));
            |sg| <= rq.segs && Bytes(sg) == Bytes(Vecs(rq.bios)) && |Bytes(sg)| == rq.dataLen
  {
    var rq := Run(q, es).requests[i];
    var f, b := rq.bios[0].front, rq.bios[|rq.bios| - 1].back;
    var p :| FitsBy(q, Vecs(rq.bios), rq.segs, f, b, p);
    GreedyMaps(q, Vecs(rq.bios));
    TotalIsSum(rq.bios);
  }

  lemma {:induction false} TotalIsSum(bios: seq<Bio>)
    requires AllHaveBytes(bios)
    ensures Total(Vecs(bios)) == Sum(bios)
  {
    if bios != [] {
      TotalIsSum(bios[..|bios| - 1]);
      assert HasBytes(bios[|bios| - 1]);
      TotalSplit(Vecs(bios[..|bios| - 1]), bios[|bios| - 1].vecs);
    }
  }

  // ----- gap-free chains ----------------------------------------------------

  ghost predicate AllChained(rs: seq<Request>) { forall i :: 0 <= i < |rs| ==> ChainInv(rs[i]) }

  lemma {:induction false} GapFreeTail(bios: seq<Bio>)
    requires bios != [] && GapFree(bios)
    ensures bios[0].size % SECTOR == 0 && GapFree(bios[1..]) && (|bios| > 1 ==> bios[1].sector == EndSector(bios[0]))
  {
    var n := |bios| - 1;
    if n > 0 {
      GapFreeTail(bios[..n]);
      assert bios[1..][..n - 1] == bios[..n][1..];
    }
  }

  /** The first bio may give way to one that ends where it ends. */
  lemma GapFreeCons(b: Bio, c: Bio, tail: seq<Bio>)
    requires GapFree([b] + tail) && c.size % SECTOR == 0 && EndSector(c) == EndSector(b)
    ensures GapFree([c] + tail)
  {
    GapFreeTail([b] + tail);
    assert ([b] + tail)[1..] == tail;
    GapFreeOne(c);
    if tail == [] {
      assert [c] + tail == [c];
    } else {
      GapFreeSplit([c], tail);
    }
  }

  lemma AdvancedEnd(b: Bio, n: nat, error: int)
    requires n % SECTOR == 0 && b.size % SECTOR == 0 && n < b.size
    ensures var a := Advance(b, n, error); a.size % SECTOR == 0 && EndSector(a) == EndSector(b) && a.sector == b.sector + n / SECTOR
  {
    assert (b.size - n) % SECTOR == 0;
    WholeAdd(n, b.size - n);
  }

  lemma WholeRest(n: nat, m: nat)
    requires n % SECTOR == 0 && m % SECTOR == 0 && m <= n
    ensures (n - m) % SECTOR == 0 && m / SECTOR + (n - m) / SECTOR == n / SECTOR
  {
  }

  /** Whole sectors taken from the front leave a gap-free chain further on. */
  lemma {:induction false} CompleteChain(bios: seq<Bio>, sector: nat, n: nat, error: int)
    requires AllHaveBytes(bios) && ChainIn(bios, sector) && n % SECTOR == 0 && n < Sum(bios)
    ensures ChainIn(Complete(bios, n, error).rest, sector + n / SECTOR)
  {
    SumFirst(bios);
    GapFreeTail(bios);
    var b, tail := bios[0], bios[1..];
    if n >= b.size {
      WholeRest(n, b.size);
      assert Sum(tail) > 0;
      CompleteChain(tail, EndSector(b), n - b.size, error);
    } else if n > 0 {
      assert bios == [b] + tail;
      AdvancedEnd(b, n, error);
      GapFreeCons(b, Advance(b, n, error), tail);
    }
  }

  lemma AlikeChain(a: seq<Bio>, r: Request, sector: nat)
    requires ChainIn(a, sector) && SameData(a, r.bios)
    ensures ChainIn(r.bios, sector)
  {
    SameDataIs(a, r.bios);
  }

  lemma UpdateChain(q: Limits, rq: Request, n: nat, error: int)
    requires RequestInv(q, rq) && ChainInv(rq) && n % SECTOR == 0 && n < rq.dataLen
    ensures ChainInv(UpdateRequest(q, rq, n, error).rq)
  {
    CompleteChain(rq.bios, rq.sector, n, error);
    UpdateIs(q, rq, n, error);
    LeftOver(rq.bios, n, error);
    var r := LeftRequest(rq, n, error);
    RecalculatedIs(q, r);
    AlikeChain(r.bios, UpdateRequest(q, rq, n, error).rq, r.sector);
  }

  lemma SetChain(rs: seq<Request>, i: nat, r: Request)
    requires AllChained(rs) && i < |rs| && ChainInv(r)
    ensures AllChained(rs[i := r])
  {
  }

  lemma RemoveChain(rs: seq<Request>, i: nat)
    requires AllChained(rs) && i < |rs|
    ensures AllChained(Remove(rs, i))
  {
  }

  lemma AppendChain(rs: seq<Request>, r: Request)
    requires AllChained(rs) && ChainInv(r)
    ensures AllChained(rs + [r])
  {
  }

  lemma CoalesceChain(q: Limits, rs: seq<Request>, x: nat, y: nat)
    requires AllKept(q, rs) && AllChained(rs) && x < |rs| && y < |rs| && x != y
    ensures AllChained(Coalesce(q, rs, x, y))
  {
    RequestHasData(q, rs[x]);
    RequestHasData(q, rs[y]);
    var p := AttemptMerge(q, rs[x], rs[y]);
    if p.ok {
      AcceptedChain(q, rs[x], rs[y]);
      SetChain(rs, x, p.req);
      RemoveChain(rs[x := p.req], y);
    } else {
      RefusedKept(q, rs[x], rs[y]);
      AlikeChain(rs[x].bios, p.req, rs[x].sector);
      AlikeChain(rs[y].bios, p.next, rs[y].sector);
      SetChain(rs, x, p.req);
      SetChain(rs[x := p.req], y, p.next);
    }
  }

  lemma MeetChain(q: Limits, rs: seq<Request>, c: Choice)
    requires AllKept(q, rs) && AllChained(rs) && c.Merge? && c.at < |rs|
    ensures AllChained(Meet(q, rs, c))
  {
    if c.neighbour < |rs| && c.neighbour != c.at {
      if c.back {
        CoalesceChain(q, rs, c.at, c.neighbour);
      } else {
        CoalesceChain(q, rs, c.neighbour, c.at);
      }
    }
  }

  lemma TriedChain(q: Limits, rs: seq<Request>, bio: Bio, i: nat, back: bool)
    requires AllKept(q, rs) && AllChained(rs) && BioOk(q, bio) && i < |rs| && bio.size % SECTOR == 0 && Adjacent(rs[i], bio, back)
    ensures AllChained(rs[i := Merged(q, rs[i], bio, back)])
  {
    MergeChain(q, rs[i], bio, back);
    SetChain(rs, i, Merged(q, rs[i], bio, back));
  }

  lemma FreshChain(q: Limits, rs: seq<Request>, bio: Bio)
    requires AllChained(rs) && BioOk(q, bio) && bio.size % SECTOR == 0
    ensures AllChained(rs + [FromBio(q, bio)])
  {
    FromBioKept(q, bio);
    AppendChain(rs, FromBio(q, bio));
  }

  lemma MakeRequestChain(q: Limits, rs: seq<Request>, bio: Bio, c: Choice)
    requires AllKept(q, rs) && BioOk(q, bio) && AllChained(rs) && bio.size % SECTOR == 0
    ensures AllChained(MakeRequest(q, rs, bio, c))
  {
    if !Proposed(rs, bio, c) {
      FreshChain(q, rs, bio);
    } else {
      var a, merged := TryMerge(q, rs[c.at], bio, c.back), rs[c.at := Merged(q, rs[c.at], bio, c.back)];
      TriedKept(q, rs, bio, c.at, c.back);
      TriedChain(q, rs, bio, c.at, c.back);
      if a.ok {
        MeetChain(q, merged, c);
      } else {
        TriedBio(q, rs[c.at], bio, c.back);
        FreshChain(q, merged, a.bio);
      }
    }
  }

  /** Bios are submitted and bytes are completed in whole sectors. */
  predicate WholeSectors(e: Event) {
    match e
    case Submit(bio, _) => bio.size % SECTOR == 0
    case Start(_) => true
    case Finish(_, n, _) => n % SECTOR == 0
  }

  lemma StepChain(q: Limits, s: Queue, e: Event)
    requires AllKept(q, s.requests) && (e.Submit? ==> BioOk(q, e.bio)) && AllChained(s.requests) && WholeSectors(e)
    ensures AllChained(Step(q, s, e).requests)
  {
    match e {
      case Submit(bio, c) => MakeRequestChain(q, s.requests, bio, c);
      case Start(i) =>
      case Finish(i, n, error) =>
        if i < |s.requests| && s.requests[i].started {
          UpdateMore(q, s.requests[i], n, error);
          if n < s.requests[i].dataLen {
            UpdateChain(q, s.requests[i], n, error);
          }
        }
    }
  }

  /** After any run in whole sectors every request is a gap-free chain from its sector on. */
  lemma {:induction false} RunChains(q: Limits, es: seq<Event>)
    requires Sound(q, es) && forall i :: 0 <= i < |es| ==> WholeSectors(es[i])
    ensures AllChained(Run(q, es).requests)
  {
    if es != [] {
      RunChains(q, es[..|es| - 1]);
      StepChain(q, Run(q, es[..|es| - 1]), es[|es| - 1]);
    }
  }
}
