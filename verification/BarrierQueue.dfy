/** The request queue of the block layer, as the code updates it, against the
    transition system of BarrierModel. */
module BarrierQueue {
  import opened Options
  import opened BarrierModel
  import opened BarrierStages

  class RequestQueue {
    var mode: Mode
    var ordered: Mode
    var ordseq: OrdSeq
    var orderr: int
    var orig: nat
    var ordcolor: bool
    var reqs: seq<Req>
    var queue: seq<Item>
    var sorted: set<nat>
    var flight: set<Item>
    var inFlight: int
    var soft: set<Item>
    var started: set<Item>
    var ended: map<nat, int>
    ghost var reported: seq<int>
    ghost var preDone: set<nat>
    ghost var barDone: set<nat>
    ghost var postDone: set<nat>
    ghost var bug: bool
    ghost var warn: bool

    ghost function View(): State
      reads this
    {
      State(mode, ordered, ordseq, orderr, orig, ordcolor, reqs, queue, sorted, flight, inFlight,
            soft, started, ended, reported, preDone, barDone, postDone, bug, warn)
    }

    /** blk_queue_ordered on a fresh queue; an unknown mode is refused. */
    constructor (m: Mode)
      ensures View() == Init(if ValidMode(m) then m else NONE)
      ensures StageInv(View())
    {
      var m' := if ValidMode(m) then m else NONE;
      mode, ordered, ordseq, orderr, orig, ordcolor := m', m', IDLE, 0, 0, false;
      reqs, queue, sorted, flight, inFlight := [], [], {}, {}, 0;
      soft, started, ended, reported := {}, {}, map[], [];
      preDone, barDone, postDone, bug, warn := {}, {}, {}, false, false;
      new;
      InitStage(m');
    }

    predicate IsAccounted(it: Item)
      reads this
    {
      match it
      case Norm(x) => x < |reqs| && (reqs[x].fs || reqs[x].discard)
      case Bar => true
      case Pre => false
      case Post => false
    }

    function OrderedReqSeq(it: Item): (r: int)
      reads this
      ensures r == ReqSeq(View(), it)
    {
      match it
      case Pre => STAGE_PRE
      case Bar => STAGE_BAR
      case Post => STAGE_POST
      case Norm(x) =>
        if !(x < |reqs| && reqs[x].fs) then STAGE_DRAIN
        else if orig < |reqs| && reqs[x].color == reqs[orig].color then STAGE_DRAIN
        else STAGE_DONE
    }

    /** elv_completed_request, first half: take the request off the in-flight count. */
    method UnaccountRequest(it: Item)
      modifies `inFlight, `started
      ensures View() == Unaccount(old(View()), it)
    {
      if it in started && IsAccounted(it) {
        inFlight := inFlight - 1;
      }
      started := started - {it};
    }

    /** blk_dequeue_request, second half. */
    method AccountRequest(it: Item)
      modifies `inFlight
      ensures View() == Account(old(View()), it)
    {
      if it in started && IsAccounted(it) {
        inFlight := inFlight + 1;
      }
    }

    method Finish(x: nat, error: int)
      modifies `ended, `bug
      ensures View() == EndRequest(old(View()), x, error)
    {
      bug := bug || x in ended;
      ended := ended[x := error];
    }

    method RecordError(error: int)
      modifies `orderr, `reported
      ensures View() == old(View()).(orderr := Record(old(orderr), error), reported := old(reported) + [error])
    {
      if error != 0 && orderr == 0 {
        orderr := error;
      }
      reported := reported + [error];
    }

    /** blk_ordered_complete_seq */
    method OrderedCompleteSeq(stages: OrdSeq, error: int) returns (over: bool)
      modifies `orderr, `reported, `bug, `ordseq, `inFlight, `started, `ended
      ensures View() == CompleteSeq(old(View()), stages, error)
      ensures over <==> CurSeq(old(ordseq).Or(stages)) == STAGE_DONE
    {
      RecordError(error);
      bug := bug || ordseq.Overlaps(stages);
      ordseq := ordseq.Or(stages);
      if CurSeq(ordseq) != STAGE_DONE {
        return false;
      }
      ordseq := IDLE;
      UnaccountRequest(Norm(orig));
      Finish(orig, orderr);
      return true;
    }

    /** The steps a barrier needs on this queue. */
    method ChooseMode(empty: bool)
      modifies `ordered
      ensures View() == old(View()).(ordered := Masked(old(mode), empty))
    {
      ordered := mode;
      if empty {
        ordered := ordered.(doBar := false, doPost := false);
        if ordered.byTag && !ordered.doPre {
          ordered := ordered.(byTag := false, byDrain := true);
        }
      }
    }

    /** The proxies are stacked at the head, so in reverse order. */
    method StackProxies()
      modifies `queue, `started, `soft
      ensures View() == old(View()).(queue := ProxyList(old(ordered)) + old(queue),
                                     started := old(started) - {Pre, Bar, Post}, soft := old(soft) + {Pre, Bar, Post})
    {
      started, soft := started - {Pre, Bar, Post}, soft + {Pre, Bar, Post};
      var q := queue;
      if ordered.doPost { q := [Post] + q; }
      if ordered.doBar { q := [Bar] + q; }
      if ordered.doPre { q := [Pre] + q; }
      assert q == ProxyList(ordered) + queue;
      queue := q;
    }

    /** Stash away the original request. */
    method StashBarrier()
      requires |queue| > 0 && queue[0].Norm?
      modifies `queue, `orig, `inFlight
      ensures View() == Account(old(View()), old(queue)[0]).(queue := old(queue)[1..], orig := old(queue)[0].id)
    {
      AccountRequest(queue[0]);
      orig := queue[0].id;
      queue := queue[1..];
    }

    /** start_ordered up to the completion of the skipped stages. */
    method StackSequence()
      requires |queue| > 0 && queue[0].Norm? && queue[0].id < |reqs|
      modifies this
      ensures View() == Begun(old(View()))
    {
      ghost var s := View();
      ChooseMode(reqs[queue[0].id].sectors == 0);
      StashBarrier();
      ghost var t := View();
      BegunIs(s, t);
      StackProxies();
      ResetSequence();
    }

    method ResetSequence()
      modifies `orderr, `reported, `ordseq
      ensures View() == old(View()).(orderr := 0, reported := [], ordseq := old(ordseq).(started := true))
    {
      orderr, reported, ordseq := 0, [], ordseq.(started := true);
    }

    /** start_ordered; the result tells whether the sequence is still to run. */
    method StartSequence() returns (running: bool, first: Option<Item>)
      requires |queue| > 0 && queue[0].Norm? && queue[0].id < |reqs| && ordseq == IDLE
      modifies this
      ensures View() == StartOrdered(old(View()))
      ensures running <==> ordseq != IDLE
      ensures first == if ordseq.drain && ProxyList(ordered) != [] then Some(ProxyList(ordered)[0]) else None
    {
      StackSequence();
      first := if ordered.doPre then Some(Pre) else if ordered.doBar then Some(Bar) else if ordered.doPost then Some(Post) else None;
      var skip := OrdSeq(false, false, !ordered.doPre, !ordered.doBar, !ordered.doPost);
      if ordered.byDrain && inFlight != 0 {
        first := None;
      } else {
        skip := skip.(drain := true);
      }
      var over := OrderedCompleteSeq(skip, 0);
      running := !over;
    }
  
    /** blk_do_ordered on the head of the queue. */
    method DoOrderedHead() returns (v: Verdict)
      requires |queue| > 0 && StageInv(View())
      modifies this
      ensures (View(), v) == DoOrdered(old(View()))
      ensures StageInv(View())
      ensures v.Gone? ==> |queue| < |old(queue)|
      ensures v.Ready? ==> |queue| > 0 && v.it == queue[0] && (v.it.Norm? || ordseq.drain)
    {
      DoOrderedStage(View());
      var rq := queue[0];
      var fs := ItemIsFs(rq);
      var isBarrier := fs && ItemIsHard(rq);
      if ordseq == IDLE {
        OnlyRequestsWhenIdle(View());
        assert rq in queue;
        if !isBarrier { return Ready(rq); }
        v := StartHead();
        return;
      }
      if !fs && rq != Pre && rq != Post { return Ready(rq); }
      if ordered.byTag {
        return if isBarrier && rq != Bar then Wait else Ready(rq);
      }
      var turn := OrderedReqSeq(rq);
      var cur := CurSeq(ordseq);
      warn := warn || turn < cur;
      return if turn > cur then Wait else Ready(rq);
    }

    function ItemIsFs(it: Item): (b: bool)
      reads this
      ensures b == ItemFs(View(), it)
    {
      if it.Norm? then it.id < |reqs| && reqs[it.id].fs else it == Bar
    }

    function ItemIsHard(it: Item): (b: bool)
      reads this
      ensures ItemFs(View(), it) ==> b == ItemBarrier(View(), it)
    {
      if it.Norm? then it.id < |reqs| && reqs[it.id].hard else true
    }

    /** Queue ordering not supported: the barrier is terminated. */
    method RefuseHead()
      requires |queue| > 0 && queue[0].Norm?
      modifies this
      ensures var s := old(View());
              View() == EndRequest(s.(queue := s.queue[1..], started := s.started - {s.queue[0]}), s.queue[0].id, -EOPNOTSUPP)
    {
      var rq := queue[0];
      started, queue := started - {rq}, queue[1..];
      Finish(rq.id, -EOPNOTSUPP);
    }

    /** A barrier at the head of an idle queue: run it, or refuse it. */
    method StartHead() returns (v: Verdict)
      requires |queue| > 0 && queue[0].Norm? && ordseq == IDLE && ItemBarrier(View(), queue[0])
      requires StageInv(View())
      modifies this
      ensures (View(), v) == DoOrdered(old(View()))
    {
      if mode == NONE {
        RefuseHead();
        return Gone;
      }
      StartVerdict(View());
      var running, first := StartSequence();
      if !running { return Gone; }
      v := if first.None? then Wait else Ready(first.value);
    }

    /** One turn of __elv_next_request: what blk_do_ordered lets through is marked as started. */
    method NextRequest() returns (v: Verdict)
      requires |queue| > 0 && StageInv(View())
      modifies this
      ensures View() == LookAt(old(View()), false) && StageInv(View())
      ensures v.Gone? ==> |queue| < |old(queue)|
      ensures v.Ready? ==> |queue| > 0 && v.it == queue[0] && v.it in started && Offered(View())
    {
      LookStage(View(), false);
      ReadyAgain(View());
      v := DoOrderedHead();
      if v.Ready? { started := started + {v.it}; }
    }

    /** blk_start_request on the head of the queue. */
    method StartRequest()
      requires |queue| > 0
      modifies `queue, `flight, `inFlight
      ensures View() == Dequeue(old(View()))
    {
      AccountRequest(queue[0]);
      flight := flight + {queue[0]};
      queue := queue[1..];
    }

    /** elevator_dispatch_fn moving one request to the tail. */
    method DispatchTail(x: nat)
      requires x in sorted
      modifies `queue, `sorted
      ensures View() == ElvDispatch(old(View()), Choice(x, |old(queue)|))
    {
      sorted := sorted - {x};
      queue := queue + [Norm(x)];
      assert queue == InsertAt(old(queue), |old(queue)|, Norm(x));
    }

    predicate Flagged(it: Item)
      reads this
    {
      it in soft || it in started || !it.Norm? || (it.id < |reqs| && reqs[it.id].hard)
    }

    /** elv_dispatch_sort: walk back from the tail to the place the one-way
        elevator order, counted from `boundary`, gives the request. */
    method DispatchSort(x: nat, boundary: nat) returns (at: nat)
      requires x in sorted && x < |reqs| && StageInv(View())
      modifies `queue, `sorted
      ensures MayDispatch(old(View()), Choice(x, at))
      ensures View() == ElvDispatch(old(View()), Choice(x, at))
      ensures forall k :: at <= k < |old(queue)| ==>
                Alike(old(View()), x, old(queue)[k]) && Ahead(boundary, reqs[x].pos, reqs[old(queue)[k].id].pos)
      ensures at > 0 && Alike(old(View()), x, old(queue)[at - 1]) ==>
                !Ahead(boundary, reqs[x].pos, reqs[old(queue)[at - 1].id].pos)
    {
      at := |queue|;
      while at > 0
        invariant 0 <= at <= |queue|
        invariant View() == old(View())
        invariant forall k :: at <= k < |queue| ==>
                    Alike(View(), x, queue[k]) && Ahead(boundary, reqs[x].pos, reqs[queue[k].id].pos)
      {
        var pos := queue[at - 1];
        if Flagged(pos) || pos.id >= |reqs| { break; }
        if reqs[x].discard != reqs[pos.id].discard { break; }
        if reqs[x].write != reqs[pos.id].write { break; }
        var a, b := reqs[x].pos, reqs[pos.id].pos;
        if a >= boundary {
          if b < boundary {
            at := at - 1;
            continue;
          }
        } else if b >= boundary {
          break;
        }
        if a >= b { break; }
        at := at - 1;
      }
      sorted := sorted - {x};
      queue := InsertAt(queue, at, Norm(x));
    }

    /** elv_drain_elevator */
    method DrainElevator(plan: seq<Choice>)
      requires MayDrain(View(), plan)
      modifies `queue, `sorted
      ensures View() == Drain(old(View()), plan)
    {
      var i := 0;
      while i < |plan|
        invariant 0 <= i <= |plan|
        invariant MayDrain(View(), plan[i..])
        invariant Drain(View(), plan[i..]) == Drain(old(View()), plan)
      {
        ghost var s := View();
        assert plan[i..][0] == plan[i] && plan[i..][1..] == plan[i + 1..];
        sorted := sorted - {plan[i].id};
        queue := InsertAt(queue, plan[i].at, Norm(plan[i].id));
        assert View() == ElvDispatch(s, plan[i]);
        i := i + 1;
      }
      assert plan[i..] == [];
    }

    /** Color the request; a hard barrier toggles the color of those to come. */
    method ColorRequest(r: Req)
      modifies `reqs, `ordcolor
      ensures View() == Arrive(old(View()), r)
    {
      reqs := reqs + [r.(color := ordcolor)];
      if r.hard { ordcolor := !ordcolor; }
    }

    method InsertSoft(x: nat, front: bool)
      modifies `queue, `soft
      ensures View() == old(View()).(soft := old(soft) + {Norm(x)},
                                     queue := if front then [Norm(x)] + old(queue) else old(queue) + [Norm(x)])
    {
      soft := soft + {Norm(x)};
      queue := if front then [Norm(x)] + queue else queue + [Norm(x)];
    }

    method InsertSorted(x: nat, special: bool)
      modifies `sorted, `bug
      ensures View() == old(View()).(sorted := old(sorted) + {x}, bug := old(bug) || special)
    {
      bug := bug || special;
      sorted := sorted + {x};
    }

    /** __elv_add_request and elv_insert */
    method AddElevatorRequest(r: Req, where: Where, plan: seq<Choice>)
      requires Enabled(View(), Add(r, where, plan))
      modifies this
      ensures View() == AddRequest(old(View()), r, where, plan)
    {
      var x := |reqs|;
      ColorRequest(r);
      var place := if where == Sort && (r.soft || r.hard || !r.elvpriv) then Back else where;
      match place {
        case Front => InsertSoft(x, true);
        case Back =>
          DrainElevator(plan);
          InsertSoft(x, false);
        case Sort => InsertSorted(x, !(r.fs || r.discard));
      }
    }

    /** blk_peek_request around __elv_next_request.  `offers` is what the elevator
        would dispatch on successive calls; `es` lists the events performed.  The
        inner loop ends because every vanished head shortens the queue. */
    method PeekRequest(offers: seq<nat>) returns (rq: Option<Item>, ghost es: seq<Event>)
      requires StageInv(View())
      modifies this
      ensures Runs(old(View()), es) && View() == Run(old(View()), es)
      ensures StageInv(View())
      ensures rq.Some? ==> |queue| > 0 && rq.value == queue[0] && rq.value in started && Offered(View())
    {
      es := [];
      var i := 0;
      ghost var s0 := View();
      while true
        invariant 0 <= i <= |offers|
        invariant Runs(s0, es) && View() == Run(s0, es) && StageInv(View())
        decreases |offers| - i
      {
        while |queue| > 0
          invariant Runs(s0, es) && View() == Run(s0, es) && StageInv(View())
          decreases |queue|
        {
          RunOne(s0, es, Look(false));
          var v := NextRequest();
          es := es + [Look(false)];
          if v.Ready? { return Some(v.it), es; }
          if v.Wait? { return None, es; }
        }
        if i == |offers| || offers[i] !in sorted { return None, es; }
        ghost var c := Choice(offers[i], |queue|);
        RunOne(s0, es, Dispatch(c));
        DispatchStage(View(), c);
        DispatchTail(offers[i]);
        es := es + [Dispatch(c)];
        i := i + 1;
      }
    }

    /** blk_fetch_request */
    method FetchRequest(offers: seq<nat>) returns (rq: Option<Item>, ghost es: seq<Event>)
      requires StageInv(View())
      modifies this
      ensures Runs(old(View()), es) && View() == Run(old(View()), es) && StageInv(View())
      ensures rq.Some? ==> rq.value in flight
    {
      rq, es := PeekRequest(offers);
      if rq.Some? {
        RunOne(old(View()), es, Look(true));
        LookStage(View(), true);
        StartRequest();
        es := es + [Look(true)];
      }
    }

    /** The driver lets go of the request. */
    method Release(it: Item)
      modifies `inFlight, `started, `flight
      ensures View() == Released(old(View()), it)
    {
      UnaccountRequest(it);
      flight := flight - {it};
    }

    /** The walk of elv_insert for a requeued request. */
    method RequeueInsert(it: Item)
      modifies `queue, `soft
      ensures var p := if old(ordseq) == IDLE then 0 else RequeuePlace(old(View()), ReqSeq(old(View()), it), 0);
              View() == old(View()).(soft := old(soft) + {it}, queue := InsertAt(old(queue), p, it))
    {
      var pos := 0;
      if ordseq != IDLE {
        var turn := OrderedReqSeq(it);
        while pos < |queue| && turn > OrderedReqSeq(queue[pos])
          invariant 0 <= pos <= |queue|
          invariant RequeuePlace(View(), turn, 0) == RequeuePlace(View(), turn, pos)
          invariant View() == old(View())
        {
          pos := pos + 1;
        }
      }
      soft := soft + {it};
      queue := InsertAt(queue, pos, it);
    }

    /** elv_requeue_request */
    method RequeueRequest(it: Item)
      requires it in flight
      modifies this
      ensures View() == RequeueItem(old(View()), it)
    {
      RequeueSpec(View(), it);
      Release(it);
      RequeueInsert(it);
    }

    /** The drain test at the end of elv_completed_request. */
    method CheckDrain()
      modifies this
      ensures View() == DrainCheck(old(View()))
    {
      if ordseq != IDLE && inFlight == 0 && CurSeq(ordseq) == STAGE_DRAIN {
        if |queue| == 0 || OrderedReqSeq(queue[0]) > STAGE_DRAIN {
          var _ := OrderedCompleteSeq(IDLE.(drain := true), 0);
        }
      }
    }

    /** A request the driver has finished: put_request, or the proxy's end_io. */
    method EndIo(it: Item, error: int)
      requires it in flight
      modifies this
      ensures View() == CompleteItem(old(View()), it, error)
    {
      Release(it);
      if it.Norm? { Finish(it.id, error); }
      CheckDrain();
      if !it.Norm? { EndProxy(it, error, old(orig)); }
    }

    method EndProxy(it: Item, error: int, ghost of: nat)
      requires !it.Norm?
      modifies this
      ensures var s := old(View());
              View() == CompleteSeq(s.(preDone := if it == Pre then s.preDone + {of} else s.preDone,
                                       barDone := if it == Bar then s.barDone + {of} else s.barDone,
                                       postDone := if it == Post then s.postDone + {of} else s.postDone),
                                    StageOf(it), error)
    {
      if it == Pre { preDone := preDone + {of}; }
      if it == Bar { barDone := barDone + {of}; }
      if it == Post { postDone := postDone + {of}; }
      var _ := OrderedCompleteSeq(StageOf(it), error);
    }
  }

  /** Looking once more at the head, and taking it, is starting it. */
  predicate Offered(s: State) { |s.queue| > 0 && LookAt(s, true) == Dequeue(s) }

  lemma ReadyAgain(s: State)
    requires StageInv(s) && |s.queue| > 0
    ensures DoOrdered(s).1.Ready? ==> Offered(LookAt(s, false))
  {
    if DoOrdered(s).1.Ready? {
      DoOrderedStage(s);
      var w := LookAt(s, false);
      if s.ordseq != IDLE {
        InProgress(s);
        SameVerdict(s, w);
      } else {
        OnlyRequestsWhenIdle(s);
        assert s.queue[0] in s.queue;
        if ItemBarrier(s, s.queue[0]) {
          StartHeadIs(s);
          FirstProxy(s);
          StartedStages(s);
          ProxyVerdict(w);
        } else {
          SameVerdict(s, w);
        }
      }
      OfferedIf(w);
    }
  }

  lemma OfferedIf(w: State)
    requires |w.queue| > 0 && DoOrdered(w) == (w, Ready(w.queue[0])) && w.queue[0] in w.started
    ensures Offered(w)
  {
    assert w.(started := w.started + {w.queue[0]}) == w;
  }

  lemma SameVerdict(s: State, w: State)
    requires |s.queue| > 0 && DoOrdered(s).1 == Ready(s.queue[0])
    requires s.ordseq != IDLE || !ItemBarrier(s, s.queue[0])
    requires w == DoOrdered(s).0.(started := w.started)
    ensures DoOrdered(w) == (w, Ready(w.queue[0]))
  {
  }

  lemma StartedStages(s: State)
    requires s.ordseq == IDLE && |s.queue| > 0 && s.queue[0].Norm? && s.queue[0].id < |s.reqs|
    requires StartOrdered(s).ordseq != IDLE && StartOrdered(s).ordseq.drain
    ensures AllLeft(StartOrdered(s))
  {
    StartedIs(s);
  }

  /** The drain is over, and no command is. */
  predicate AllLeft(s: State) {
    s.ordseq == OrdSeq(true, true, !s.ordered.doPre, !s.ordered.doBar, !s.ordered.doPost)
  }

  lemma ProxyVerdict(w: State)
    requires AllLeft(w) && ProxyList(w.ordered) != [] && |w.queue| > 0 && w.queue[0] == ProxyList(w.ordered)[0]
    ensures DoOrdered(w) == (w, Ready(w.queue[0]))
  {
    assert ReqSeq(w, w.queue[0]) == CurSeq(w.ordseq);
  }

  /** What elv_dispatch_sort may move request `x` past. */
  predicate Alike(s: State, x: nat, it: Item) {
    && !Stops(s, it) && it.id < |s.reqs| && x < |s.reqs|
    && s.reqs[x].discard == s.reqs[it.id].discard && s.reqs[x].write == s.reqs[it.id].write
  }

  /** One-way elevator order from `boundary`: upward to the end, then from the start. */
  predicate Ahead(boundary: nat, a: nat, b: nat) {
    (a >= boundary && b < boundary) || ((a >= boundary) == (b >= boundary) && a < b)
  }

  /** The tail of the queue from `lo` on is in elevator order. */
  ghost predicate SweepOrder(s: State, boundary: nat, lo: nat) {
    forall i, j :: lo <= i < j < |s.queue| && ItemPos(s, s.queue[i]).Some? && ItemPos(s, s.queue[j]).Some? ==>
      !Ahead(boundary, ItemPos(s, s.queue[j]).value, ItemPos(s, s.queue[i]).value)
  }

  function ItemPos(s: State, it: Item): Option<nat> {
    if it.Norm? && it.id < |s.reqs| then Some(s.reqs[it.id].pos) else None
  }

  /** Dispatching by elv_dispatch_sort keeps a run of alike requests in elevator order. */
  lemma SweepKept(s: State, x: nat, at: nat, boundary: nat, lo: nat)
    requires lo <= at <= |s.queue| && x < |s.reqs| && SweepOrder(s, boundary, lo)
    requires forall k :: lo <= k < |s.queue| ==> Alike(s, x, s.queue[k])
    requires forall k :: at <= k < |s.queue| ==> Alike(s, x, s.queue[k]) && Ahead(boundary, s.reqs[x].pos, s.reqs[s.queue[k].id].pos)
    requires at > lo ==> Alike(s, x, s.queue[at - 1]) && !Ahead(boundary, s.reqs[x].pos, s.reqs[s.queue[at - 1].id].pos)
    ensures SweepOrder(ElvDispatch(s, Choice(x, at)), boundary, lo)
  {
    var t := ElvDispatch(s, Choice(x, at));
    forall i, j | lo <= i < j < |t.queue|
      ensures !Ahead(boundary, t.reqs[t.queue[j].id].pos, t.reqs[t.queue[i].id].pos)
    {
      assert forall k :: lo <= k < |t.queue| ==> t.queue[k] == if k < at then s.queue[k] else if k == at then Norm(x) else s.queue[k - 1];
      assert forall k :: lo <= k < |s.queue| ==> ItemPos(s, s.queue[k]).Some?;
      if j == at && i < at - 1 {
        assert !Ahead(boundary, ItemPos(s, s.queue[at - 1]).value, ItemPos(s, s.queue[i]).value);
      }
    }
  }

  lemma BegunIs(s: State, t: State)
    requires |s.queue| > 0 && s.queue[0].Norm? && s.queue[0].id < |s.reqs|
    requires var m := s.(ordered := Masked(s.mode, s.reqs[s.queue[0].id].sectors == 0));
             t == Account(m, s.queue[0]).(queue := s.queue[1..], orig := s.queue[0].id)
    ensures var u := t.(queue := ProxyList(t.ordered) + t.queue, started := t.started - {Pre, Bar, Post},
                        soft := t.soft + {Pre, Bar, Post});
            Begun(s) == u.(orderr := 0, reported := [], ordseq := u.ordseq.(started := true))
  {
  }

  lemma StartVerdict(s: State)
    requires StageInv(s) && s.ordseq == IDLE && s.mode != NONE
    requires |s.queue| > 0 && s.queue[0].Norm? && ItemBarrier(s, s.queue[0])
    ensures var t := StartOrdered(s);
            DoOrdered(s) == (t, if t.ordseq == IDLE then Gone
                                else if t.ordseq.drain && ProxyList(t.ordered) != [] then Ready(ProxyList(t.ordered)[0])
                                else Wait)
  {
    StartHeadIs(s);
    FirstProxy(s);
  }

  lemma StartHeadIs(s: State)
    requires s.ordseq == IDLE && s.mode != NONE
    requires |s.queue| > 0 && s.queue[0].Norm? && ItemBarrier(s, s.queue[0])
    ensures var t := StartOrdered(s);
            DoOrdered(s) == (t, if t.ordseq == IDLE then Gone
                                else if !t.ordseq.drain || t.queue == [] then Wait
                                else Ready(t.queue[0]))
  {
  }

  lemma FirstProxy(s: State)
    requires StageInv(s) && s.ordseq == IDLE && s.mode != NONE
    requires |s.queue| > 0 && s.queue[0].Norm? && s.queue[0].id < |s.reqs|
    ensures var t := StartOrdered(s);
            t.ordseq != IDLE && t.ordseq.drain ==> ProxyList(t.ordered) != [] && t.queue != [] && t.queue[0] == ProxyList(t.ordered)[0]
  {
    StartedBarrier(s);
    var b := Begun(s);
    var t := StartOrdered(s);
    assert t.queue == b.queue && t.ordered == b.ordered;
    if t.ordseq != IDLE && t.ordseq.drain {
      assert ProxyList(b.ordered) != [];
    }
  }

  lemma RequeueSpec(s: State, it: Item)
    ensures var m := Released(s, it);
            var p := if m.ordseq == IDLE then 0 else RequeuePlace(m, ReqSeq(m, it), 0);
            RequeueItem(s, it) == m.(soft := m.soft + {it}, queue := InsertAt(m.queue, p, it))
  {
    var m := Released(s, it);
    var n := Unaccount(s, it).(flight := s.flight - {it}, soft := s.soft + {it});
    assert n == m.(soft := m.soft + {it});
    assert ReqSeq(n, it) == ReqSeq(m, it);
    SamePlace(m, n, ReqSeq(m, it), 0);
  }

  /** The flags of a request do not enter the place it is requeued at. */
  lemma {:induction false} SamePlace(s: State, t: State, turn: int, k: nat)
    requires k <= |s.queue| && t.queue == s.queue && t.reqs == s.reqs && t.orig == s.orig
    ensures RequeuePlace(s, turn, k) == RequeuePlace(t, turn, k)
    decreases |s.queue| - k
  {
    if k < |s.queue| { SamePlace(s, t, turn, k + 1); }
  }
}
