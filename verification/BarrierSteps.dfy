/** Every event of a well-behaved run keeps the ordering invariant. */
module BarrierSteps {
  import opened BarrierModel
  import opened BarrierStages
  import opened BarrierOrder

  // ----- elevator dispatch --------------------------------------------------

  lemma InsertIndex(q: seq<Item>, at: nat, y: Item)
    requires at <= |q|
    ensures var r := InsertAt(q, at, y);
            && |r| == |q| + 1
            && (forall i :: 0 <= i < at ==> r[i] == q[i])
            && r[at] == y
            && (forall i :: at < i < |r| ==> r[i] == q[i - 1])
  {
  }

  lemma DispatchArrival(s: State, c: Choice)
    requires InArrivalOrder(s) && BehindBarriers(s) && BarriersWait(s) && MayDispatch(s, c)
    ensures InArrivalOrder(ElvDispatch(s, c))
  {
    var t := ElvDispatch(s, c);
    InsertIndex(s.queue, c.at, Norm(c.id));
    assert forall k :: c.at <= k < |s.queue| ==> !HardItem(s, s.queue[k]);
    forall i, j | 0 <= i < j < |t.queue| && FsItem(t, t.queue[i]) && FsItem(t, t.queue[j])
                  && (HardItem(t, t.queue[i]) || HardItem(t, t.queue[j]))
      ensures t.queue[i].id < t.queue[j].id
    {
      if j == c.at { assert HardItem(s, s.queue[i]); }
    }
  }

  lemma DispatchBehind(s: State, c: Choice)
    requires BehindBarriers(s) && BarriersWait(s) && MayDispatch(s, c)
    ensures BehindBarriers(ElvDispatch(s, c))
  {
    var t := ElvDispatch(s, c);
    InsertIndex(s.queue, c.at, Norm(c.id));
    forall k | 0 <= k < |t.queue| && HardItem(t, t.queue[k])
      ensures t.queue[k] !in t.started
      ensures t.ordseq != IDLE ==> t.orig < t.queue[k].id
      ensures forall x :: x in t.sorted ==> t.queue[k].id < x
      ensures forall x: nat :: Norm(x) in t.flight && Fs(t, x) ==> x < t.queue[k].id
    {
      assert k != c.at;
      var k' := if k < c.at then k else k - 1;
      assert t.queue[k] == s.queue[k'];
      assert HardItem(s, s.queue[k']);
    }
  }

  lemma DispatchRanked(s: State, c: Choice)
    requires Ranked(s) && Running(s, s.ordseq) && MayDispatch(s, c) && Places(s)
    ensures Ranked(ElvDispatch(s, c))
  {
    var t := ElvDispatch(s, c);
    InsertIndex(s.queue, c.at, Norm(c.id));
    if s.ordseq != IDLE {
      forall i, j | 0 <= i < j < |t.queue| && Placed(t, t.queue[i]) && Placed(t, t.queue[j])
        ensures Rank(t, t.queue[i]) <= Rank(t, t.queue[j])
      {
        if i == c.at {
          assert !Stops(s, s.queue[j - 1]);
          assert FsItem(s, s.queue[j - 1]);
          assert Count(s, s.orig) == 1;
        } else if j != c.at {
          var i', j' := if i < c.at then i else i - 1, if j < c.at then j else j - 1;
          assert Placed(s, s.queue[i']) && Placed(s, s.queue[j']);
        }
      }
    }
  }

  lemma DispatchOrder(s: State, c: Choice)
    requires Places(s) && OrderInv(s) && MayDispatch(s, c)
    ensures OrderInv(ElvDispatch(s, c))
  {
    DispatchArrival(s, c);
    DispatchBehind(s, c);
    DispatchRanked(s, c);
    var t := ElvDispatch(s, c);
    assert forall b: nat :: Closed(s, b) ==> Closed(t, b);
  }

  // ----- arrival ------------------------------------------------------------

  lemma ArriveColors(s: State, r: Req)
    requires Colors(s) && (r.hard ==> r.fs)
    ensures Colors(Arrive(s, r))
  {
    var t := Arrive(s, r);
    var r' := r.(color := s.ordcolor);
    forall x | 0 <= x <= |s.reqs|
      ensures ColorAt(t.reqs, x) == ColorAt(s.reqs, x)
    {
      ColorPrefix(s.reqs, r', x);
    }
  }

  /** All that is queued, in flight, sorted or ended has arrived. */
  lemma ArrivedBefore(s: State)
    requires Places(s)
    ensures forall it :: (it in s.queue || it in s.flight) && it.Norm? ==> it.id < |s.reqs|
    ensures forall x :: x in s.sorted || x in s.ended ==> x < |s.reqs|
    ensures s.ordseq != IDLE ==> s.orig < |s.reqs|
  {
    forall it | (it in s.queue || it in s.flight) && it.Norm?
      ensures it.id < |s.reqs|
    {
      assert Count(s, it.id) >= 1;
    }
    forall x | x in s.sorted || x in s.ended
      ensures x < |s.reqs|
    {
      assert Count(s, x) >= 1;
    }
    assert s.ordseq != IDLE ==> Count(s, s.orig) >= 1;
  }

  /** `t` is `s` with one more request, number |s.reqs|. */
  ghost predicate OneMore(s: State, t: State) {
    && |t.reqs| == |s.reqs| + 1 && s.reqs <= t.reqs
    && t.flight == s.flight && t.started == s.started && t.ended == s.ended
    && t.ordseq == s.ordseq && t.orig == s.orig && t.mode == s.mode && t.ordered == s.ordered
    && t.preDone == s.preDone && t.barDone == s.barDone && t.postDone == s.postDone
    && s.soft <= t.soft
  }

  lemma OneMoreFinished(s: State, t: State)
    requires Places(s) && Finished(s) && Running(s, s.ordseq) && BarriersWait(s) && OneMore(s, t)
    requires forall x :: x in t.sorted ==> x in s.sorted || (x == |s.reqs| && !Hard(t, x))
    ensures Finished(t) && Running(t, t.ordseq) && BarriersWait(t)
  {
    ArrivedBefore(s);
    assert forall b: nat :: b <= |s.reqs| && Closed(s, b) ==> Closed(t, b);
  }

  lemma BackArrival(s: State, t: State)
    requires InArrivalOrder(s) && s.reqs <= t.reqs && t.queue == s.queue + [Norm(|s.reqs|)]
    requires forall it :: it in s.queue && it.Norm? ==> it.id < |s.reqs|
    ensures InArrivalOrder(t)
  {
    forall i, j | 0 <= i < j < |t.queue| && FsItem(t, t.queue[i]) && FsItem(t, t.queue[j])
                  && (HardItem(t, t.queue[i]) || HardItem(t, t.queue[j]))
      ensures t.queue[i].id < t.queue[j].id
    {
      assert t.queue[i] == s.queue[i] && s.queue[i] in s.queue;
      assert j < |s.queue| ==> s.queue[j] in s.queue;
    }
  }

  lemma BackBehind(s: State, t: State)
    requires BehindBarriers(s) && StartedArrived(s) && OneMore(s, t)
    requires t.queue == s.queue + [Norm(|s.reqs|)] && t.sorted == {}
    requires forall it :: (it in s.queue || it in s.flight) && it.Norm? ==> it.id < |s.reqs|
    requires s.ordseq != IDLE ==> s.orig < |s.reqs|
    ensures BehindBarriers(t)
  {
    forall k | 0 <= k < |t.queue| && HardItem(t, t.queue[k])
      ensures t.queue[k] !in t.started
      ensures t.ordseq != IDLE ==> t.orig < t.queue[k].id
      ensures forall x: nat :: Norm(x) in t.flight && Fs(t, x) ==> x < t.queue[k].id
    {
      if k < |s.queue| { assert s.queue[k] in s.queue && HardItem(s, s.queue[k]); }
    }
  }

  lemma BackRanked(s: State, t: State)
    requires Ranked(s) && OneMore(s, t) && t.queue == s.queue + [Norm(|s.reqs|)]
    requires forall it :: it in s.queue && it.Norm? ==> it.id < |s.reqs|
    requires s.ordseq != IDLE ==> s.orig < |s.reqs|
    ensures Ranked(t)
  {
    assert forall k :: 0 <= k < |s.queue| ==> t.queue[k] == s.queue[k] && s.queue[k] in s.queue;
    assert forall it :: it in s.queue ==> FsItem(t, it) == FsItem(s, it);
  }

  lemma BackOrder(s: State, t: State)
    requires Places(s) && OrderInv(s) && OneMore(s, t)
    requires t.queue == s.queue + [Norm(|s.reqs|)] && t.sorted == {}
    ensures InArrivalOrder(t) && BehindBarriers(t) && Ranked(t)
  {
    ArrivedBefore(s);
    BackArrival(s, t);
    BackBehind(s, t);
    BackRanked(s, t);
  }

  lemma FrontArrival(s: State, t: State)
    requires InArrivalOrder(s) && t.queue == [Norm(|s.reqs|)] + s.queue && !Fs(t, |s.reqs|)
    requires forall it :: it in s.queue ==> FsItem(t, it) == FsItem(s, it) && HardItem(t, it) == HardItem(s, it)
    ensures InArrivalOrder(t)
  {
    forall i, j | 0 <= i < j < |t.queue| && FsItem(t, t.queue[i]) && FsItem(t, t.queue[j])
                  && (HardItem(t, t.queue[i]) || HardItem(t, t.queue[j]))
      ensures t.queue[i].id < t.queue[j].id
    {
      assert t.queue[i] == s.queue[i - 1] && t.queue[j] == s.queue[j - 1];
    }
  }

  lemma FrontBehind(s: State, t: State)
    requires BehindBarriers(s) && OneMore(s, t) && t.sorted == s.sorted
    requires t.queue == [Norm(|s.reqs|)] + s.queue && !Hard(t, |s.reqs|)
    requires forall it :: it in s.queue || it in s.flight ==>
               FsItem(t, it) == FsItem(s, it) && HardItem(t, it) == HardItem(s, it)
    ensures BehindBarriers(t)
  {
    forall k | 0 <= k < |t.queue| && HardItem(t, t.queue[k])
      ensures t.queue[k] !in t.started
      ensures t.ordseq != IDLE ==> t.orig < t.queue[k].id
      ensures forall x :: x in t.sorted ==> t.queue[k].id < x
      ensures forall x: nat :: Norm(x) in t.flight && Fs(t, x) ==> x < t.queue[k].id
    {
      assert t.queue[k] == s.queue[k - 1];
      assert HardItem(s, s.queue[k - 1]);
      assert forall x: nat :: Norm(x) in t.flight && Fs(t, x) ==> FsItem(s, Norm(x));
    }
  }

  lemma FrontRanked(s: State, t: State)
    requires Ranked(s) && OneMore(s, t)
    requires t.queue == [Norm(|s.reqs|)] + s.queue && !Fs(t, |s.reqs|)
    requires forall it :: it in s.queue ==> FsItem(t, it) == FsItem(s, it)
    ensures Ranked(t)
  {
    if s.ordseq != IDLE {
      forall i, j | 0 <= i < j < |t.queue| && Placed(t, t.queue[i]) && Placed(t, t.queue[j])
        ensures Rank(t, t.queue[i]) <= Rank(t, t.queue[j])
      {
        assert t.queue[i] == s.queue[i - 1] && t.queue[j] == s.queue[j - 1];
      }
    }
  }

  lemma FrontOrder(s: State, t: State)
    requires Places(s) && OrderInv(s) && OneMore(s, t)
    requires t.queue == [Norm(|s.reqs|)] + s.queue && t.sorted == s.sorted
    requires !Fs(t, |s.reqs|) && !Hard(t, |s.reqs|)
    ensures InArrivalOrder(t) && BehindBarriers(t) && Ranked(t)
  {
    ArrivedBefore(s);
    FrontArrival(s, t);
    FrontBehind(s, t);
    FrontRanked(s, t);
  }

  lemma SortArrival(s: State, t: State)
    requires InArrivalOrder(s) && t.queue == s.queue
    requires forall it :: it in s.queue ==> FsItem(t, it) == FsItem(s, it) && HardItem(t, it) == HardItem(s, it)
    ensures InArrivalOrder(t)
  {
    assert forall k :: 0 <= k < |s.queue| ==> s.queue[k] in s.queue;
  }

  lemma SortBehind(s: State, t: State)
    requires BehindBarriers(s) && OneMore(s, t) && t.queue == s.queue && t.sorted == s.sorted + {|s.reqs|}
    requires forall it :: it in s.queue || it in s.flight ==>
               FsItem(t, it) == FsItem(s, it) && HardItem(t, it) == HardItem(s, it)
    ensures BehindBarriers(t)
  {
    forall k | 0 <= k < |t.queue| && HardItem(t, t.queue[k])
      ensures t.queue[k] !in t.started
      ensures t.ordseq != IDLE ==> t.orig < t.queue[k].id
      ensures forall x :: x in t.sorted ==> t.queue[k].id < x
      ensures forall x: nat :: Norm(x) in t.flight && Fs(t, x) ==> x < t.queue[k].id
    {
      assert s.queue[k] in s.queue && HardItem(s, s.queue[k]);
      assert forall x: nat :: Norm(x) in t.flight && Fs(t, x) ==> FsItem(s, Norm(x));
    }
  }

  lemma SortRanked(s: State, t: State)
    requires Ranked(s) && OneMore(s, t) && t.queue == s.queue
    requires forall it :: it in s.queue ==> FsItem(t, it) == FsItem(s, it)
    ensures Ranked(t)
  {
    assert forall k :: 0 <= k < |s.queue| ==> s.queue[k] in s.queue;
  }

  lemma SortOrder(s: State, t: State)
    requires Places(s) && OrderInv(s) && OneMore(s, t)
    requires t.queue == s.queue && t.sorted == s.sorted + {|s.reqs|}
    ensures InArrivalOrder(t) && BehindBarriers(t) && Ranked(t)
  {
    ArrivedBefore(s);
    SortArrival(s, t);
    SortBehind(s, t);
    SortRanked(s, t);
  }

  lemma MayDispatchBefore(s: State, r: Req, c: Choice)
    requires Places(s) && MayDispatch(Arrive(s, r), c)
    ensures MayDispatch(s, c) && ElvDispatch(Arrive(s, r), c) == Arrive(ElvDispatch(s, c), r)
  {
    ArrivedBefore(s);
    assert forall k :: 0 <= k < |s.queue| ==> s.queue[k] in s.queue;
  }

  /** Draining the elevator does not depend on the request that causes it. */
  lemma {:induction false} DrainCommutes(s: State, r: Req, plan: seq<Choice>)
    requires Places(s) && MayDrain(Arrive(s, r), plan)
    ensures MayDrain(s, plan)
    ensures Drain(Arrive(s, r), plan) == Arrive(Drain(s, plan), r)
    decreases plan
  {
    if plan != [] {
      var c := plan[0];
      MayDispatchBefore(s, r, c);
      DispatchPlaces(s, c);
      PlacesKept(s, ElvDispatch(s, c));
      DrainCommutes(ElvDispatch(s, c), r, plan[1..]);
    }
  }

  lemma {:induction false} DrainOrder(s: State, plan: seq<Choice>)
    requires Places(s) && OrderInv(s) && MayDrain(s, plan)
    ensures Places(Drain(s, plan)) && OrderInv(Drain(s, plan)) && Drain(s, plan).sorted == {}
    decreases plan
  {
    if plan != [] {
      var c := plan[0];
      DispatchPlaces(s, c);
      PlacesKept(s, ElvDispatch(s, c));
      DispatchOrder(s, c);
      DrainOrder(ElvDispatch(s, c), plan[1..]);
    }
  }

  lemma AddFront(s: State, r: Req)
    requires Places(s) && OrderInv(s) && !r.fs && !r.hard
    ensures OrderInv(AddRequest(s, r, Front, []))
  {
    var t := AddRequest(s, r, Front, []);
    ArriveColors(s, r);
    OneMoreFinished(s, t);
    FrontOrder(s, t);
  }

  lemma AddBack(s: State, r: Req, where: Where, plan: seq<Choice>)
    requires Places(s) && OrderInv(s) && Placement(r, where) == Back && (r.hard ==> r.fs)
    requires MayDrain(Arrive(s, r), plan)
    ensures OrderInv(AddRequest(s, r, where, plan))
  {
    DrainCommutes(s, r, plan);
    DrainOrder(s, plan);
    DrainPlaces(s, plan);
    var d := Drain(s, plan);
    AppendOrder(d, r);
    var a := Arrive(d, r);
    assert AddRequest(s, r, where, plan) == a.(soft := a.soft + {Norm(|d.reqs|)}, queue := a.queue + [Norm(|d.reqs|)]);
  }

  lemma AppendOrder(s: State, r: Req)
    requires Places(s) && OrderInv(s) && s.sorted == {} && (r.hard ==> r.fs)
    ensures var a := Arrive(s, r);
            OrderInv(a.(soft := a.soft + {Norm(|s.reqs|)}, queue := a.queue + [Norm(|s.reqs|)]))
  {
    var a := Arrive(s, r);
    var t := a.(soft := a.soft + {Norm(|s.reqs|)}, queue := a.queue + [Norm(|s.reqs|)]);
    ArriveColors(s, r);
    OneMoreFinished(s, t);
    BackOrder(s, t);
  }

  lemma AddSort(s: State, r: Req)
    requires Places(s) && OrderInv(s) && Placement(r, Sort) == Sort
    ensures OrderInv(AddRequest(s, r, Sort, []))
  {
    var t := AddRequest(s, r, Sort, []);
    ArriveColors(s, r);
    OneMoreFinished(s, t);
    SortOrder(s, t);
  }

  lemma AddOrder(s: State, r: Req, where: Where, plan: seq<Choice>)
    requires Places(s) && OrderInv(s)
    requires Enabled(s, Add(r, where, plan)) && WellBehaved(Add(r, where, plan))
    ensures OrderInv(AddRequest(s, r, where, plan))
  {
    match Placement(r, where) {
      case Front => AddFront(s, r);
      case Back => AddBack(s, r, where, plan);
      case Sort => AddSort(s, r);
    }
  }

  // ----- requeue ------------------------------------------------------------

  lemma RequeueArrival(s: State, it: Item, p: nat)
    requires InArrivalOrder(s) && BehindBarriers(s) && BarriersWait(s) && it in s.flight && p <= |s.queue|
    requires FsItem(s, it) ==> p == 0
    ensures InArrivalOrder(s.(queue := InsertAt(s.queue, p, it)))
  {
    var t := s.(queue := InsertAt(s.queue, p, it));
    InsertIndex(s.queue, p, it);
    forall i, j | 0 <= i < j < |t.queue| && FsItem(t, t.queue[i]) && FsItem(t, t.queue[j])
                  && (HardItem(t, t.queue[i]) || HardItem(t, t.queue[j]))
      ensures t.queue[i].id < t.queue[j].id
    {
      if i == p {
        assert HardItem(s, s.queue[j - 1]);
      } else {
        assert j != p;
      }
    }
  }

  /** Where a proxy is put back: behind what must precede it, before what must follow. */
  lemma RequeueRanked(s: State, it: Item, p: nat)
    requires Places(s) && OrderInv(s) && s.ordseq != IDLE && it in s.flight
    requires p <= |s.queue|
    requires forall i :: 0 <= i < p ==> ReqSeq(s, s.queue[i]) < ReqSeq(s, it)
    requires p < |s.queue| ==> ReqSeq(s, it) <= ReqSeq(s, s.queue[p])
    ensures FsItem(s, it) ==> p == 0
    ensures forall i :: 0 <= i < p && Placed(s, s.queue[i]) && Placed(s, it) ==> Rank(s, s.queue[i]) <= Rank(s, it)
    ensures forall i :: p <= i < |s.queue| && Placed(s, s.queue[i]) && Placed(s, it) ==> Rank(s, it) <= Rank(s, s.queue[i])
  {
    if it.Norm? {
      NormPlace(s, it, p);
    } else {
      ProxyPlace(s, it, p);
    }
  }

  lemma NothingIsLower(s: State, p: nat)
    requires p <= |s.queue|
    requires forall i :: 0 <= i < p ==> ReqSeq(s, s.queue[i]) < STAGE_DRAIN
    ensures p == 0
  {
    if p > 0 {
      var low := ReqSeq(s, s.queue[0]);
      assert false;
    }
  }

  lemma NormPlace(s: State, it: Item, p: nat)
    requires Places(s) && OrderInv(s) && s.ordseq != IDLE && it in s.flight && it.Norm?
    requires p <= |s.queue|
    requires forall i :: 0 <= i < p ==> ReqSeq(s, s.queue[i]) < ReqSeq(s, it)
    ensures p == 0 && (Fs(s, it.id) ==> Rank(s, it) == STAGE_DRAIN)
  {
    if Fs(s, it.id) {
      assert Count(s, it.id) == 1;
      EarlierColor(s, it.id);
    }
    NothingIsLower(s, p);
  }

  lemma ProxyPlace(s: State, it: Item, p: nat)
    requires Places(s) && OrderInv(s) && s.ordseq != IDLE && !it.Norm?
    requires p <= |s.queue|
    requires forall i :: 0 <= i < p ==> ReqSeq(s, s.queue[i]) < ReqSeq(s, it)
    requires p < |s.queue| ==> ReqSeq(s, it) <= ReqSeq(s, s.queue[p])
    ensures forall i :: 0 <= i < p && Placed(s, s.queue[i]) ==> Rank(s, s.queue[i]) <= Rank(s, it)
    ensures forall i :: p <= i < |s.queue| && Placed(s, s.queue[i]) ==> Rank(s, it) <= Rank(s, s.queue[i])
  {
    forall i | 0 <= i < p && Placed(s, s.queue[i])
      ensures Rank(s, s.queue[i]) <= Rank(s, it)
    {
      PassedOver(s, it, p, i);
    }
    if p < |s.queue| { NotPassed(s, it, p); }
  }

  lemma NotPassed(s: State, it: Item, p: nat)
    requires Places(s) && OrderInv(s) && s.ordseq != IDLE && !it.Norm?
    requires p < |s.queue| && ReqSeq(s, it) <= ReqSeq(s, s.queue[p])
    ensures forall i :: p <= i < |s.queue| && Placed(s, s.queue[i]) ==> Rank(s, it) <= Rank(s, s.queue[i])
  {
    assert Placed(s, s.queue[p]);
    RankAtLeast(s, p);
    forall i | p < i < |s.queue| && Placed(s, s.queue[i])
      ensures Rank(s, s.queue[p]) <= Rank(s, s.queue[i])
    {
      RanksRise(s, p, i);
    }
  }

  lemma RanksRise(s: State, p: nat, i: nat)
    requires s.ordseq != IDLE && Ranked(s) && p < i < |s.queue| && Placed(s, s.queue[p]) && Placed(s, s.queue[i])
    ensures Rank(s, s.queue[p]) <= Rank(s, s.queue[i])
  {
  }

  lemma PassedOver(s: State, it: Item, p: nat, i: nat)
    requires Places(s) && OrderInv(s) && s.ordseq != IDLE && !it.Norm?
    requires i < p <= |s.queue| && Placed(s, s.queue[i])
    requires forall j :: 0 <= j < p ==> ReqSeq(s, s.queue[j]) < ReqSeq(s, it)
    ensures Rank(s, s.queue[i]) <= Rank(s, it)
  {
    if s.queue[i].Norm? && s.orig < s.queue[i].id {
      var j := LaterBlocks(s, i);
      assert false;
    }
    if s.queue[i].Norm? { NotHeld(s, i); }
  }

  lemma NotHeld(s: State, i: nat)
    requires Places(s) && s.ordseq != IDLE && i < |s.queue| && s.queue[i].Norm?
    ensures s.queue[i].id != s.orig && s.queue[i].id < |s.reqs| && s.queue[i].id !in s.ended
  {
    assert s.queue[i] in s.queue;
    assert Count(s, s.queue[i].id) <= 1;
  }

  /** The color never makes a request look later than it is. */
  lemma RankAtLeast(s: State, i: nat)
    requires Places(s) && OrderInv(s) && s.ordseq != IDLE && i < |s.queue| && Placed(s, s.queue[i])
    ensures ReqSeq(s, s.queue[i]) <= Rank(s, s.queue[i])
  {
    if s.queue[i].Norm? {
      NotHeld(s, i);
      if s.queue[i].id < s.orig { EarlierColor(s, s.queue[i].id); }
    }
  }

  lemma RequeueKeepsRanks(s: State, it: Item)
    requires Places(s) && OrderInv(s) && it in s.flight
    ensures Ranked(RequeueItem(s, it))
    ensures FsItem(s, it) ==> PlaceOf(s, it) == 0
  {
    if s.ordseq != IDLE {
      var t := RequeueItem(s, it);
      var p := PlaceOf(s, it);
      RequeueIs(s, it);
      RequeueRanked(s, it, p);
      InsertIndex(s.queue, p, it);
      RanksInserted(s, t, it, p);
    }
  }

  lemma RanksInserted(s: State, t: State, it: Item, p: nat)
    requires s.ordseq != IDLE && Ranked(s) && p <= |s.queue|
    requires t.queue == InsertAt(s.queue, p, it) && t.reqs == s.reqs && t.orig == s.orig
    requires t.soft == s.soft + {it}
    requires forall i :: 0 <= i < p && Placed(s, s.queue[i]) && Placed(s, it) ==> Rank(s, s.queue[i]) <= Rank(s, it)
    requires forall i :: p <= i < |s.queue| && Placed(s, s.queue[i]) && Placed(s, it) ==> Rank(s, it) <= Rank(s, s.queue[i])
    ensures Ranked(t)
  {
    InsertIndex(s.queue, p, it);
    forall i, j | 0 <= i < j < |t.queue| && Placed(t, t.queue[i]) && Placed(t, t.queue[j])
      ensures Rank(t, t.queue[i]) <= Rank(t, t.queue[j])
    {
      if i == p {
        assert Placed(s, s.queue[j - 1]);
      } else if j == p {
        assert Placed(s, s.queue[i]);
      } else {
        var i', j' := if i < p then i else i - 1, if j < p then j else j - 1;
        assert Placed(s, s.queue[i']) && Placed(s, s.queue[j']);
      }
    }
  }

  lemma RequeueBehind(s: State, it: Item)
    requires BehindBarriers(s) && BarriersWait(s) && it in s.flight
    ensures BehindBarriers(RequeueItem(s, it)) && BarriersWait(RequeueItem(s, it))
  {
    var t := RequeueItem(s, it);
    RequeueIs(s, it);
    var p := PlaceOf(s, it);
    InsertIndex(s.queue, p, it);
    forall k | 0 <= k < |t.queue| && HardItem(t, t.queue[k])
      ensures t.queue[k] !in t.started
      ensures t.ordseq != IDLE ==> t.orig < t.queue[k].id
      ensures forall x :: x in t.sorted ==> t.queue[k].id < x
      ensures forall x: nat :: Norm(x) in t.flight && Fs(t, x) ==> x < t.queue[k].id
    {
      assert k != p;
      var k' := if k < p then k else k - 1;
      assert HardItem(s, s.queue[k']);
    }
  }

  lemma RequeueOrder(s: State, it: Item)
    requires StageInv(s) && OrderInv(s) && it in s.flight
    ensures OrderInv(RequeueItem(s, it))
  {
    var t := RequeueItem(s, it);
    RequeueIs(s, it);
    RequeueKeepsRanks(s, it);
    RequeueIdlePlace(s, it);
    RequeueArrival(s, it, PlaceOf(s, it));
    RequeueBehind(s, it);
    SameEnded(s, t);
  }

  lemma RequeueIdlePlace(s: State, it: Item)
    requires Places(s) && OrderInv(s) && it in s.flight
    ensures FsItem(s, it) ==> PlaceOf(s, it) == 0
  {
    if s.ordseq != IDLE { RequeueKeepsRanks(s, it); }
  }

  /** Nothing ended, nothing arrived, and no more is in flight than before. */
  lemma SameEnded(s: State, t: State)
    requires Finished(s) && Running(s, s.ordseq)
    requires t.reqs == s.reqs && t.ended == s.ended && t.flight <= s.flight && t.sorted == s.sorted
    requires t.mode == s.mode && t.ordered == s.ordered && t.ordseq == s.ordseq && t.orig == s.orig
    requires t.preDone == s.preDone && t.barDone == s.barDone && t.postDone == s.postDone
    requires t.started <= s.started
    ensures Finished(t) && Running(t, t.ordseq)
  {
    assert forall b: nat :: Closed(s, b) ==> Closed(t, b);
  }

  // ----- completion ---------------------------------------------------------

  /** All the ordering needs before a stage is completed. */
  ghost predicate OrderCompleting(s: State, mask: OrdSeq) {
    && DrainMode(s.mode) && StartedArrived(s) && !s.warn
    && Colors(s) && BarriersWait(s) && InArrivalOrder(s) && BehindBarriers(s)
    && Finished(s) && Ranked(s)
    && s.ordseq != IDLE
    && Running(s, s.ordseq.Or(mask))
    && (forall it :: it in s.flight ==> it.Norm?)
  }

  lemma CompleteSeqGoesOn(s: State, mask: OrdSeq, err: int)
    requires OrderCompleting(s, mask) && s.ordseq.Or(mask).started
    requires CurSeq(s.ordseq.Or(mask)) != STAGE_DONE
    ensures OrderInv(CompleteSeq(s, mask, err))
  {
    var t := CompleteSeq(s, mask, err);
    assert forall b: nat :: Closed(s, b) ==> Closed(t, b);
  }

  lemma CompleteSeqOver(s: State, mask: OrdSeq, err: int)
    requires OrderCompleting(s, mask) && Completing(s, mask)
    requires CurSeq(s.ordseq.Or(mask)) == STAGE_DONE
    ensures OrderInv(CompleteSeq(s, mask, err))
  {
    var t := CompleteSeq(s, mask, err);
    assert forall b: nat :: Closed(s, b) ==> Closed(t, b);
    assert Performed(t, s.orig);
    FinishedNow(s, t);
  }

  /** The one end that is new is that of the running barrier. */
  lemma FinishedNow(s: State, t: State)
    requires Finished(s) && t.reqs == s.reqs && s.ended.Keys <= t.ended.Keys
    requires s.mode == t.mode && s.preDone == t.preDone && s.barDone == t.barDone && s.postDone == t.postDone
    requires forall b :: b in t.ended ==> b in s.ended || b == s.orig
    requires Closed(s, s.orig) && Performed(t, s.orig)
    ensures Finished(t)
  {
    forall b | b in t.ended && Barrier(t, b)
      ensures Closed(t, b) && Performed(t, b)
    {
      assert Closed(s, b);
      assert b in s.ended ==> Performed(s, b);
    }
  }

  lemma CompleteSeqOrder(s: State, mask: OrdSeq, err: int)
    requires OrderCompleting(s, mask) && Completing(s, mask)
    ensures OrderInv(CompleteSeq(s, mask, err))
  {
    if CurSeq(s.ordseq.Or(mask)) == STAGE_DONE {
      CompleteSeqOver(s, mask, err);
    } else {
      CompleteSeqGoesOn(s, mask, err);
    }
  }

  /** `t` is `s` after something left the driver, and perhaps ended. */
  ghost predicate Left(s: State, t: State, it: Item) {
    && t == Released(s, it).(ended := t.ended, bug := t.bug, preDone := t.preDone,
                             barDone := t.barDone, postDone := t.postDone)
    && s.ended.Keys <= t.ended.Keys
    && (forall b :: b in t.ended && Barrier(s, b) ==> b in s.ended)
    && s.preDone <= t.preDone && s.barDone <= t.barDone && s.postDone <= t.postDone
  }

  lemma LeftQueue(s: State, it: Item, t: State)
    requires OrderInv(s) && Left(s, t, it)
    ensures Colors(t) && BarriersWait(t) && InArrivalOrder(t) && BehindBarriers(t) && Ranked(t) && StartedArrived(t)
  {
  }

  lemma LeftFinished(s: State, it: Item, t: State)
    requires Finished(s) && Running(s, s.ordseq) && Left(s, t, it)
    ensures Finished(t) && Running(t, t.ordseq)
  {
    assert forall b: nat :: Closed(s, b) ==> Closed(t, b);
    assert forall b: nat :: Performed(s, b) ==> Performed(t, b);
    assert forall k :: ReqSeq(t, k) == ReqSeq(s, k);
  }

  lemma LeftOrder(s: State, it: Item, t: State)
    requires OrderInv(s) && Left(s, t, it)
    ensures OrderInv(t)
  {
    LeftQueue(s, it, t);
    LeftFinished(s, it, t);
  }

  /** The drain stage ends only when nothing earlier is outstanding. */
  lemma DrainCheckOrder(s: State)
    requires StageInv(s) && OrderInv(s)
    ensures OrderInv(DrainCheck(s))
  {
    if s.ordseq != IDLE && s.inFlight == 0 && CurSeq(s.ordseq) == STAGE_DRAIN
       && (s.queue == [] || ReqSeq(s, s.queue[0]) > STAGE_DRAIN) {
      var mask := IDLE.(drain := true);
      assert Completing(s, mask);
      Drained(s);
      assert forall it :: it in s.flight ==> it.Norm?;
      CompleteSeqOrder(s, mask, 0);
    }
  }

  lemma NoneCounted(s: State, x: nat)
    requires Counts(s) && s.inFlight == 0 && Norm(x) in s.flight
    ensures !Fs(s, x)
  {
    assert CountedFlight(s) == {};
    assert Accounted(s, Norm(x)) ==> Norm(x) in CountedFlight(s);
  }

  lemma Drained(s: State)
    requires StageInv(s) && OrderInv(s)
    requires s.ordseq != IDLE && s.inFlight == 0
    requires s.queue == [] || ReqSeq(s, s.queue[0]) > STAGE_DRAIN
    ensures Closed(s, s.orig)
  {
    forall x: nat | x < s.orig && Fs(s, x)
      ensures x in s.ended
    {
      if x !in s.ended { NotDrained(s, x); }
    }
  }

  lemma NotDrained(s: State, x: nat)
    requires StageInv(s) && OrderInv(s)
    requires s.ordseq != IDLE && s.inFlight == 0
    requires x < s.orig && Fs(s, x) && x !in s.ended
    ensures s.queue != [] && ReqSeq(s, s.queue[0]) <= STAGE_DRAIN
  {
    if Norm(x) in s.flight { NoneCounted(s, x); }
    WhereIs(s, x);
    var k :| 0 <= k < |s.queue| && s.queue[k] == Norm(x);
    var h := s.queue[0];
    if Placed(s, h) {
      assert Placed(s, s.queue[k]);
      assert Rank(s, h) <= Rank(s, s.queue[k]) == STAGE_DRAIN;
      NotHeld(s, 0) by { assert h.Norm?; }
      EarlierColor(s, h.id);
    }
  }

  lemma NormCompleteOrder(s: State, x: nat, err: int)
    requires StageInv(s) && OrderInv(s) && Norm(x) in s.flight
    ensures OrderInv(CompleteItem(s, Norm(x), err))
  {
    var s2 := EndRequest(Released(s, Norm(x)), x, err);
    NormEndedStage(s, x, err);
    LeftOrder(s, Norm(x), s2);
    DrainCheckOrder(s2);
  }

  lemma ProxyAlone(s: State, it: Item)
    requires s.ordseq != IDLE && Running(s, s.ordseq) && it in s.flight && !it.Norm?
    ensures forall k :: k in s.flight && !k.Norm? ==> k == it
  {
    forall k | k in s.flight && !k.Norm?
      ensures k == it
    {
      assert ReqSeq(s, k) == CurSeq(s.ordseq) == ReqSeq(s, it);
    }
  }

  lemma ProxyRuns(s: State, it: Item)
    requires StageInv(s) && it in s.flight && !it.Norm?
    ensures s.ordseq != IDLE && s.ordseq.drain
  {
    assert ProxyCount(s, it) >= 1;
  }

  lemma ProxyCompleteOrder(s: State, it: Item, err: int)
    requires StageInv(s) && OrderInv(s) && it in s.flight && !it.Norm?
    ensures OrderInv(CompleteItem(s, it, err))
  {
    var t := ProxyEnded(s, it);
    ProxyEndedIs(s, it, err);
    ProxyCompleting(s, it);
    ProxyRuns(s, it);
    ProxyAlone(s, it);
    LeftOrder(s, it, t);
    assert OrderCompleting(t, StageOf(it));
    CompleteSeqOrder(t, StageOf(it), err);
  }

  // ----- the head of the queue ----------------------------------------------

  lemma RestBehind(s: State)
    requires InArrivalOrder(s) && |s.queue| > 0 && FsItem(s, s.queue[0]) && HardItem(s, s.queue[0])
    ensures forall i :: 0 < i < |s.queue| && FsItem(s, s.queue[i]) ==> s.queue[0].id < s.queue[i].id
  {
  }

  /** With nothing accounted in flight, all before the barrier at the head has ended. */
  lemma NothingBefore(s: State)
    requires StageInv(s) && OrderInv(s) && s.ordseq == IDLE && s.inFlight == 0
    requires |s.queue| > 0 && FsItem(s, s.queue[0]) && HardItem(s, s.queue[0])
    ensures Closed(s, s.queue[0].id)
  {
    forall x: nat | x < s.queue[0].id && Fs(s, x)
      ensures x in s.ended
    {
      if x !in s.ended {
        if Norm(x) in s.flight { NoneCounted(s, x); }
        if x !in s.sorted { WhereIs(s, x); }
      }
    }
  }

  /** The queue start_ordered leaves: the proxies in stage order, then the rest. */
  ghost predicate Stacked(s: State, t: State, n: nat) {
    && n <= |t.queue| && |t.queue| == |s.queue| - 1 + n
    && (forall i :: 0 <= i < n ==> !t.queue[i].Norm?)
    && (forall i, j :: 0 <= i < j < n ==> Rank(t, t.queue[i]) <= Rank(t, t.queue[j]))
    && (forall i :: n <= i < |t.queue| ==> t.queue[i] == s.queue[i - n + 1])
  }

  lemma BegunStacked(s: State)
    requires |s.queue| > 0 && s.queue[0].Norm? && s.queue[0].id < |s.reqs|
    ensures var t := Begun(s); Stacked(s, t, |ProxyList(t.ordered)|)
  {
  }

  lemma BegunArrival(s: State, t: State, n: nat)
    requires InArrivalOrder(s) && |s.queue| > 0 && Stacked(s, t, n) && t.reqs == s.reqs
    ensures InArrivalOrder(t)
  {
    forall i, j | 0 <= i < j < |t.queue| && FsItem(t, t.queue[i]) && FsItem(t, t.queue[j])
                  && (HardItem(t, t.queue[i]) || HardItem(t, t.queue[j]))
      ensures t.queue[i].id < t.queue[j].id
    {
      assert FsItem(s, s.queue[i - n + 1]) && FsItem(s, s.queue[j - n + 1]);
    }
  }

  lemma BegunQueue(s: State)
    requires StageInv(s) && OrderInv(s) && s.ordseq == IDLE
    requires |s.queue| > 0 && FsItem(s, s.queue[0]) && HardItem(s, s.queue[0])
    ensures var t := Begun(s); InArrivalOrder(t) && BehindBarriers(t)
  {
    var t := Begun(s);
    BegunStacked(s);
    BegunArrival(s, t, |ProxyList(t.ordered)|);
    BegunBehind(s, |ProxyList(t.ordered)|);
  }

  lemma BegunBehind(s: State, n: nat)
    requires StageInv(s) && OrderInv(s) && s.ordseq == IDLE
    requires |s.queue| > 0 && FsItem(s, s.queue[0]) && HardItem(s, s.queue[0])
    requires Stacked(s, Begun(s), n)
    ensures BehindBarriers(Begun(s))
  {
    var t := Begun(s);
    RestBehind(s);
    forall k | 0 <= k < |t.queue| && HardItem(t, t.queue[k])
      ensures t.queue[k] !in t.started
      ensures t.orig < t.queue[k].id
      ensures forall x :: x in t.sorted ==> t.queue[k].id < x
      ensures forall x: nat :: Norm(x) in t.flight && Fs(t, x) ==> x < t.queue[k].id
    {
      assert HardItem(s, s.queue[k - n + 1]);
      assert s.reqs[s.queue[k - n + 1].id].fs;
    }
  }

  lemma BegunRanks(s: State, t: State, n: nat)
    requires |s.queue| > 0 && Stacked(s, t, n) && t.reqs == s.reqs
    requires s.queue[0].Norm? && t.orig == s.queue[0].id
    requires forall i :: 0 < i < |s.queue| && FsItem(s, s.queue[i]) ==> t.orig < s.queue[i].id
    requires forall i :: 0 < i < |s.queue| ==> s.queue[i].Norm?
    ensures Ranked(t)
  {
    forall i | n <= i < |t.queue| && Placed(t, t.queue[i])
      ensures Rank(t, t.queue[i]) == STAGE_DONE
    {
      assert FsItem(s, s.queue[i - n + 1]);
    }
  }

  lemma BegunRanked(s: State)
    requires StageInv(s) && OrderInv(s) && s.ordseq == IDLE
    requires |s.queue| > 0 && FsItem(s, s.queue[0]) && HardItem(s, s.queue[0])
    ensures Ranked(Begun(s))
  {
    var t := Begun(s);
    RestBehind(s);
    BegunStacked(s);
    OnlyRequestsWhenIdle(s);
    assert forall i :: 0 < i < |s.queue| ==> s.queue[i] in s.queue;
    BegunRanks(s, t, |ProxyList(t.ordered)|);
  }

  lemma BegunRunning(s: State)
    requires StageInv(s) && OrderInv(s) && s.ordseq == IDLE
    requires |s.queue| > 0 && FsItem(s, s.queue[0]) && HardItem(s, s.queue[0])
    ensures var t := Begun(s);
            && Running(t, t.ordseq.Or(Skipped(t))) && Finished(t) && BarriersWait(t)
            && (forall it :: it in t.flight ==> it.Norm?)
  {
    var t := Begun(s);
    OnlyRequestsWhenIdle(s);
    assert t.inFlight == s.inFlight;
    if s.inFlight == 0 { NothingBefore(s); }
    assert forall b: nat :: Closed(s, b) ==> Closed(t, b);
    assert Barrier(s, s.queue[0].id);
  }

  lemma StartOrder(s: State)
    requires StageInv(s) && OrderInv(s) && s.ordseq == IDLE
    requires |s.queue| > 0 && FsItem(s, s.queue[0]) && HardItem(s, s.queue[0])
    ensures OrderInv(StartOrdered(s))
  {
    var t := Begun(s);
    StartedBarrier(s);
    BegunCompleting(s);
    BegunQueue(s);
    BegunRanked(s);
    BegunRunning(s);
    assert OrderCompleting(t, Skipped(t));
    CompleteSeqOrder(t, Skipped(t), 0);
  }

  lemma MarkOrder(s: State, it: Item)
    requires Places(s) && OrderInv(s) && it in s.queue && !HardItem(s, it)
    ensures OrderInv(s.(started := s.started + {it}))
  {
    var t := s.(started := s.started + {it});
    ArrivedBefore(s);
    if s.ordseq != IDLE { assert Count(s, s.orig) == 1; }
    assert forall b: nat :: Closed(s, b) ==> Closed(t, b);
  }

  /** May the head of the queue be handed to the driver now? */
  predicate InTurn(s: State) {
    && |s.queue| > 0
    && !HardItem(s, s.queue[0])
    && (s.ordseq != IDLE && Placed(s, s.queue[0]) ==> ReqSeq(s, s.queue[0]) == CurSeq(s.ordseq))
    && (s.ordseq != IDLE && FsItem(s, s.queue[0]) ==> s.queue[0].id < s.orig)
  }

  lemma TailOrder(s: State, t: State)
    requires |s.queue| > 0 && t.queue == s.queue[1..] && t.reqs == s.reqs
    requires t.ordseq == s.ordseq && t.orig == s.orig && t.soft == s.soft
    requires InArrivalOrder(s) && Ranked(s)
    ensures InArrivalOrder(t) && Ranked(t)
  {
    assert forall k :: 0 <= k < |t.queue| ==> t.queue[k] == s.queue[k + 1];
  }

  lemma TailBehind(s: State, t: State)
    requires InTurn(s) && InArrivalOrder(s) && BehindBarriers(s)
    requires (forall x :: 0 <= x < |s.reqs| && s.reqs[x].hard ==> s.reqs[x].fs)
    requires t == Dequeue(s)
    ensures BehindBarriers(t)
  {
    forall k | 0 <= k < |t.queue| && HardItem(t, t.queue[k])
      ensures t.queue[k] !in t.started
      ensures t.ordseq != IDLE ==> t.orig < t.queue[k].id
      ensures forall x :: x in t.sorted ==> t.queue[k].id < x
      ensures forall x: nat :: Norm(x) in t.flight && Fs(t, x) ==> x < t.queue[k].id
    {
      assert t.queue[k] == s.queue[k + 1] && HardItem(s, s.queue[k + 1]);
      assert FsItem(s, s.queue[k + 1]);
      assert FsItem(s, s.queue[0]) ==> s.queue[0].id < s.queue[k + 1].id;
    }
  }

  lemma DequeueOrder(s: State)
    requires OrderInv(s) && InTurn(s)
    ensures OrderInv(Dequeue(s))
  {
    var t := Dequeue(s);
    TailOrder(s, t);
    TailBehind(s, t);
    TakenRunning(s, t);
  }

  lemma TakenRunning(s: State, t: State)
    requires OrderInv(s) && InTurn(s) && t == Dequeue(s)
    ensures Running(t, t.ordseq) && Finished(t) && BarriersWait(t)
  {
    assert forall b: nat :: Closed(s, b) ==> Closed(t, b);
    assert forall k :: ReqSeq(t, k) == ReqSeq(s, k);
  }

  /** The head never belongs to a stage already over, so the WARN_ON is silent;
      and what may go is an earlier request or the current stage's own command. */
  lemma HeadStage(s: State)
    requires StageInv(s) && OrderInv(s) && s.ordseq != IDLE && |s.queue| > 0
    requires Placed(s, s.queue[0])
    ensures CurSeq(s.ordseq) <= ReqSeq(s, s.queue[0])
    ensures ReqSeq(s, s.queue[0]) <= CurSeq(s.ordseq) ==> InTurn(s)
  {
    if s.queue[0].Norm? {
      HeadRequest(s);
    } else {
      assert s.queue[0] in s.queue;
      assert ProxyCount(s, s.queue[0]) >= 1;
    }
  }

  lemma HeadRequest(s: State)
    requires StageInv(s) && OrderInv(s) && s.ordseq != IDLE && |s.queue| > 0
    requires FsItem(s, s.queue[0])
    ensures CurSeq(s.ordseq) <= ReqSeq(s, s.queue[0])
    ensures ReqSeq(s, s.queue[0]) <= CurSeq(s.ordseq) ==> InTurn(s)
  {
    NotHeld(s, 0);
    var x := s.queue[0].id;
    if s.orig < x {
      LaterColor(s, 0);
      assert CurSeq(s.ordseq) < STAGE_DONE;
    } else {
      EarlierColor(s, x);
      assert Closed(s, s.orig) ==> x in s.ended;
      assert !HardItem(s, s.queue[0]);
    }
  }

  lemma HandOut(s: State, take: bool)
    requires StageInv(s) && OrderInv(s) && InTurn(s)
    ensures var t := s.(started := s.started + {s.queue[0]});
            OrderInv(t) && (take ==> OrderInv(Dequeue(t)))
  {
    assert s.queue[0] in s.queue;
    MarkOrder(s, s.queue[0]);
    var t := s.(started := s.started + {s.queue[0]});
    assert InTurn(t);
    DequeueOrder(t);
  }

  lemma LookIdle(s: State, take: bool)
    requires StageInv(s) && OrderInv(s) && |s.queue| > 0 && s.ordseq == IDLE
    ensures OrderInv(LookAt(s, take))
  {
    OnlyRequestsWhenIdle(s);
    assert s.queue[0] in s.queue;
    if ItemBarrier(s, s.queue[0]) {
      StartOrder(s);
      StartedBarrier(s);
      var t := StartOrdered(s);
      if DoOrdered(s).1.Ready? { StartInTurn(s); HandOut(t, take); }
    } else {
      HandOut(s, take);
    }
  }

  /** What start_ordered returns at once is the first of the proxies. */
  lemma StartInTurn(s: State)
    requires StageInv(s) && OrderInv(s) && |s.queue| > 0 && s.ordseq == IDLE
    requires FsItem(s, s.queue[0]) && HardItem(s, s.queue[0])
    requires DoOrdered(s).1.Ready?
    ensures InTurn(StartOrdered(s))
  {
    StartedBarrier(s);
    BegunInTurn(s);
  }

  lemma BegunInTurn(s: State)
    requires |s.queue| > 0 && s.queue[0].Norm? && s.queue[0].id < |s.reqs| && s.ordseq == IDLE
    requires StartOrdered(s).ordseq != IDLE && StartOrdered(s).ordseq.drain
    ensures InTurn(StartOrdered(s))
  {
    var b := Begun(s);
    var t := StartOrdered(s);
    assert t == CompleteSeq(b, Skipped(b), 0);
    assert t.ordseq == b.ordseq.Or(Skipped(b)) && t.queue == b.queue;
    assert ProxyList(b.ordered) != [];
    assert t.queue[0] == ProxyList(b.ordered)[0];
  }

  lemma LookRunning(s: State, take: bool)
    requires StageInv(s) && OrderInv(s) && |s.queue| > 0 && s.ordseq != IDLE
    ensures OrderInv(LookAt(s, take))
  {
    if Placed(s, s.queue[0]) {
      HeadStage(s);
      assert DoOrdered(s).0 == s;
      if DoOrdered(s).1.Ready? { HandOut(s, take); }
    } else {
      assert DoOrdered(s) == (s, Ready(s.queue[0]));
      assert InTurn(s);
      HandOut(s, take);
    }
  }

  // ----- all events, all runs -----------------------------------------------

  lemma PartialBarOrder(s: State, err: int)
    requires OrderInv(s)
    ensures OrderInv(s.(orderr := Record(s.orderr, err), reported := s.reported + [err]))
  {
    var t := s.(orderr := Record(s.orderr, err), reported := s.reported + [err]);
    assert forall b: nat :: Closed(s, b) ==> Closed(t, b);
  }

  lemma ApplyOrder(s: State, e: Event)
    requires StageInv(s) && OrderInv(s) && Enabled(s, e) && WellBehaved(e)
    ensures OrderInv(Apply(s, e))
  {
    match e {
      case Add(r, where, plan) => AddOrder(s, r, where, plan);
      case Dispatch(c) => DispatchOrder(s, c);
      case Look(take) => if s.ordseq == IDLE { LookIdle(s, take); } else { LookRunning(s, take); }
      case Requeue(it) => RequeueOrder(s, it);
      case PartialBar(err) => PartialBarOrder(s, err);
      case Complete(it, err) =>
        if it.Norm? { NormCompleteOrder(s, it.id, err); } else { ProxyCompleteOrder(s, it, err); }
    }
  }

  lemma {:induction false} RunOrder(s: State, es: seq<Event>)
    requires StageInv(s) && OrderInv(s) && Runs(s, es)
    requires forall e :: e in es ==> WellBehaved(e)
    ensures StageInv(Run(s, es)) && OrderInv(Run(s, es))
    decreases es
  {
    if es != [] {
      assert es[0] in es && forall e :: e in es[1..] ==> e in es;
      ApplyStage(s, es[0]);
      ApplyOrder(s, es[0]);
      RunOrder(Apply(s, es[0]), es[1..]);
    }
  }
}
