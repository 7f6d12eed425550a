/**
 When a running sequence can stall: on a queue that orders by draining alone, an
 empty barrier leaves no command in the queue, and a discard that is an fs request
 can be dispatched in front of one that is not, after the last completion.
 */
module BarrierStall {
  import opened BarrierModel
  import opened BarrierStages
  import opened BarrierOrder
  import opened BarrierSteps
  import opened BarrierProgress

  const FIRST := Req(true, false, false, false, false, true, 0, 8, false)
  const EMPTY := Req(true, false, true, false, false, true, 0, 0, false)
  const SPECIAL := Req(false, true, false, false, true, true, 0, 8, false)
  const DISCARD := Req(true, true, false, false, true, true, 0, 8, false)

  /** One request is with the driver when an empty barrier starts; two discards come in,
      and the second is dispatched in front of the first when nothing is in flight. */
  function StallRun(): seq<Event> {
    [Add(FIRST, Back, []), Look(true), Add(EMPTY, Back, []), Look(true),
     Add(SPECIAL, Sort, []), Add(DISCARD, Sort, []),
     Dispatch(Choice(2, 0)), Complete(Norm(0), 0), Dispatch(Choice(3, 0))]
  }

  // ----- the states of that run ---------------------------------------------

  function Arrived(): State { Init(DRAIN_PLAIN).(reqs := [FIRST], queue := [Norm(0)], soft := {Norm(0)}) }

  function Issued(): State { Arrived().(queue := [], started := {Norm(0)}, flight := {Norm(0)}, inFlight := 1) }

  function Queued(): State {
    Issued().(reqs := [FIRST, EMPTY], ordcolor := true, queue := [Norm(1)], soft := {Norm(0), Norm(1)})
  }

  /** The queue drains for the barrier. */
  function Draining(): State {
    Queued().(queue := [], ordered := DRAIN_PLAIN.(doBar := false), ordseq := OrdSeq(true, false, true, true, true),
              orig := 1, reported := [0], soft := {Norm(0), Norm(1), Pre, Bar, Post})
  }

  function OneSorted(): State { Draining().(reqs := [FIRST, EMPTY, SPECIAL.(color := true)], sorted := {2}) }

  function TwoSorted(): State {
    Draining().(reqs := [FIRST, EMPTY, SPECIAL.(color := true), DISCARD.(color := true)], sorted := {2, 3})
  }

  function Waiting(): State { TwoSorted().(sorted := {3}, queue := [Norm(2)]) }

  /** The drain is not over: the special request at the head belongs to it. */
  function Completed(): State { Waiting().(started := {}, flight := {}, inFlight := 0, ended := map[0 := 0]) }

  function Blocked(): State { Completed().(sorted := {}, queue := [Norm(3), Norm(2)]) }

  predicate Stepped(s: State, e: Event, t: State) { Enabled(s, e) && Apply(s, e) == t }

  lemma FirstArrives()
    ensures Stepped(Init(DRAIN_PLAIN), Add(FIRST, Back, []), Arrived())
  {
  }

  lemma FirstIssued()
    ensures Stepped(Arrived(), Look(true), Issued())
  {
    assert DoOrdered(Arrived()) == (Arrived(), Ready(Norm(0)));
  }

  lemma BarrierArrives()
    ensures Stepped(Issued(), Add(EMPTY, Back, []), Queued())
  {
  }

  lemma BarrierStarts()
    ensures Stepped(Queued(), Look(true), Draining())
  {
    var q := Queued();
    var b := Begun(q);
    assert b.queue == [] && b.started == q.started && b.soft == Draining().soft;
    assert b == Draining().(ordseq := b.ordseq, reported := []) && b.ordseq == IDLE.(started := true);
    StartedIs(q);
    assert StartOrdered(q) == Draining();
    assert DoOrdered(q) == (Draining(), Wait);
  }

  lemma DiscardsArrive()
    ensures Stepped(Draining(), Add(SPECIAL, Sort, []), OneSorted())
    ensures Stepped(OneSorted(), Add(DISCARD, Sort, []), TwoSorted())
  {
  }

  lemma SpecialDispatched()
    ensures Stepped(TwoSorted(), Dispatch(Choice(2, 0)), Waiting())
  {
  }

  lemma FirstCompletes()
    ensures Stepped(Waiting(), Complete(Norm(0), 0), Completed())
  {
    assert Released(Waiting(), Norm(0)) == Waiting().(started := {}, flight := {}, inFlight := 0);
    assert DrainCheck(Completed()) == Completed();
  }

  lemma DiscardDispatched()
    ensures Stepped(Completed(), Dispatch(Choice(3, 0)), Blocked())
  {
  }

  lemma BlockedStalls(s: State)
    requires s == Blocked()
    ensures Stalled(s)
  {
    assert DoOrdered(s).1 == Wait;
  }

  // ----- the run ------------------------------------------------------------

  function StateAt(n: nat): State {
    if n == 0 then Init(DRAIN_PLAIN) else if n == 1 then Arrived() else if n == 2 then Issued()
    else if n == 3 then Queued() else if n == 4 then Draining() else if n == 5 then OneSorted()
    else if n == 6 then TwoSorted() else if n == 7 then Waiting() else if n == 8 then Completed() else Blocked()
  }

  lemma StepAt(n: nat)
    requires n < |StallRun()|
    ensures Stepped(StateAt(n), StallRun()[n], StateAt(n + 1))
  {
    if n == 0 { FirstArrives(); }
    else if n == 1 { FirstIssued(); }
    else if n == 2 { BarrierArrives(); }
    else if n == 3 { BarrierStarts(); }
    else if n == 4 || n == 5 { DiscardsArrive(); }
    else if n == 6 { SpecialDispatched(); }
    else if n == 7 { FirstCompletes(); }
    else { DiscardDispatched(); }
  }

  lemma {:induction false} Walk(n: nat)
    requires n <= |StallRun()|
    ensures var s, es := Init(DRAIN_PLAIN), StallRun()[..n]; Runs(s, es) && Run(s, es) == StateAt(n)
  {
    if n > 0 {
      var es := StallRun();
      Walk(n - 1);
      StepAt(n - 1);
      RunOne(Init(DRAIN_PLAIN), es[..n - 1], es[n - 1]);
      assert es[..n] == es[..n - 1] + [es[n - 1]];
    }
  }

  lemma StallRunEnds()
    ensures Runs(Init(DRAIN_PLAIN), StallRun()) && Run(Init(DRAIN_PLAIN), StallRun()) == Blocked()
  {
    var n := |StallRun()|;
    assert StateAt(n) == Blocked();
    Walk(n);
    assert StallRun()[..n] == StallRun();
  }

  lemma StallRunBehaves()
    ensures forall e :: e in StallRun() ==> WellBehaved(e)
  {
  }

  lemma StallRunStalls()
    ensures Runs(Init(DRAIN_PLAIN), StallRun()) && Stalled(Run(Init(DRAIN_PLAIN), StallRun()))
    ensures forall e :: e in StallRun() ==> WellBehaved(e)
  {
    StallRunEnds();
    StallRunBehaves();
    BlockedStalls(Run(Init(DRAIN_PLAIN), StallRun()));
  }

  // ----- exactly when -------------------------------------------------------

  ghost predicate AllUniform(es: seq<Event>, discardsAreFs: bool) { forall e :: e in es ==> Uniform(e, discardsAreFs) }

  /** A run of well-behaved callers; unless `mixed`, their discards are of one kind. */
  ghost predicate Permitted(m: Mode, mixed: bool, es: seq<Event>) {
    && Runs(Init(m), es) && (forall e :: e in es ==> WellBehaved(e))
    && (mixed || AllUniform(es, true) || AllUniform(es, false))
  }

  lemma PermittedMoves(m: Mode, mixed: bool, es: seq<Event>)
    requires DrainMode(m) && Permitted(m, mixed, es) && (m != DRAIN_PLAIN || !mixed)
    ensures !Stalled(Run(Init(m), es))
  {
    NoStall(m, es, AllUniform(es, true));
  }

  /** No permitted run stalls a sequence, exactly if the queue does more than drain or
      discards that are fs requests are not mixed with others. */
  lemma NoStallExactlyWhen(m: Mode, mixed: bool)
    requires DrainMode(m)
    ensures (forall es :: Permitted(m, mixed, es) ==> !Stalled(Run(Init(m), es))) <==> m != DRAIN_PLAIN || !mixed
  {
    if m != DRAIN_PLAIN || !mixed {
      forall es | Permitted(m, mixed, es)
        ensures !Stalled(Run(Init(m), es))
      {
        PermittedMoves(m, mixed, es);
      }
    } else {
      StallRunStalls();
      assert Permitted(m, mixed, StallRun());
    }
  }
}
