/**
 The ordered (barrier) sequencing of the block layer as a transition system:
 blk-barrier.c, the insertion and completion paths of elevator.c, and the
 head-of-queue loop of blk.h.

 A request is named by its arrival number, so "queued before the barrier" is
 simply "has a smaller number".  Every lock-protected operation is one event;
 the elevator's choice of what to dispatch, and where, is part of the event.
 */
module BarrierModel {

  /** QUEUE_ORDERED_* : how a queue orders a barrier, and which steps it needs. */
  datatype Mode = Mode(byDrain: bool, byTag: bool, doPre: bool, doBar: bool, doPost: bool, fua: bool)

  const NONE := Mode(false, false, false, false, false, false)
  const DRAIN_PLAIN := Mode(true, false, false, true, false, false)
  const DRAIN_FLUSH := Mode(true, false, true, true, true, false)
  const DRAIN_FUA := Mode(true, false, true, true, false, true)
  const TAG_PLAIN := Mode(false, true, false, true, false, false)
  const TAG_FLUSH := Mode(false, true, true, true, true, false)
  const TAG_FUA := Mode(false, true, true, true, false, true)

  /** The values blk_queue_ordered accepts. */
  predicate ValidMode(m: Mode) {
    m in {NONE, DRAIN_PLAIN, DRAIN_FLUSH, DRAIN_FUA, TAG_PLAIN, TAG_FLUSH, TAG_FUA}
  }

  predicate DrainMode(m: Mode) {
    m in {DRAIN_PLAIN, DRAIN_FLUSH, DRAIN_FUA}
  }

  /** QUEUE_ORDSEQ_* stage bits. */
  const STAGE_DRAIN: int := 2
  const STAGE_PRE: int := 4
  const STAGE_BAR: int := 8
  const STAGE_POST: int := 16
  const STAGE_DONE: int := 32

  /** The bits of q->ordseq, one field per stage. */
  datatype OrdSeq = OrdSeq(started: bool, drain: bool, pre: bool, bar: bool, post: bool) {
    predicate Overlaps(m: OrdSeq) {
      (started && m.started) || (drain && m.drain) || (pre && m.pre) || (bar && m.bar) || (post && m.post)
    }
    function Or(m: OrdSeq): OrdSeq {
      OrdSeq(started || m.started, drain || m.drain, pre || m.pre, bar || m.bar, post || m.post)
    }
    /** The stored word. */
    function Word(): bv8 {
      (if started then 0x01 else 0) | (if drain then 0x02 else 0) | (if pre then 0x04 else 0)
      | (if bar then 0x08 else 0) | (if post then 0x10 else 0)
    }
  }

  const IDLE := OrdSeq(false, false, false, false, false)

  /** A request as it is submitted; `color` is the REQ_ORDERED_COLOR bit. */
  datatype Req = Req(fs: bool, discard: bool, hard: bool, soft: bool, elvpriv: bool, write: bool,
                     pos: nat, sectors: nat, color: bool)

  /** A member of the dispatch queue: a request, or one of the three proxies. */
  datatype Item = Norm(id: nat) | Pre | Bar | Post

  datatype Where = Sort | Back | Front

  /** One choice of the elevator: this request, at this place of the dispatch queue. */
  datatype Choice = Choice(id: nat, at: nat)

  datatype Event =
    | Add(r: Req, where: Where, plan: seq<Choice>)
    | Dispatch(c: Choice)
    | Look(take: bool)
    | Requeue(it: Item)
    | PartialBar(err: int)
    | Complete(it: Item, err: int)

  /** `ended`, `reported` and the three `...Done` sets are histories; `bug` and
      `warn` record that a BUG_ON or WARN_ON of the code was hit. */
  datatype State = State(
    mode: Mode, ordered: Mode, ordseq: OrdSeq, orderr: int, orig: nat, ordcolor: bool,
    reqs: seq<Req>, queue: seq<Item>, sorted: set<nat>, flight: set<Item>, inFlight: int,
    soft: set<Item>, started: set<Item>,
    ended: map<nat, int>, reported: seq<int>,
    preDone: set<nat>, barDone: set<nat>, postDone: set<nat>,
    bug: bool, warn: bool)

  function Init(m: Mode): State {
    State(m, m, IDLE, 0, 0, false, [], [], {}, {}, 0, {}, {}, map[], [], {}, {}, {}, false, false)
  }

  // ----- request predicates -------------------------------------------------

  predicate Fs(s: State, x: nat) { x < |s.reqs| && s.reqs[x].fs }
  predicate Hard(s: State, x: nat) { x < |s.reqs| && s.reqs[x].hard }
  predicate Discard(s: State, x: nat) { x < |s.reqs| && s.reqs[x].discard }
  predicate Barrier(s: State, x: nat) { Fs(s, x) && Hard(s, x) }

  predicate ItemFs(s: State, it: Item) {
    match it
    case Norm(x) => Fs(s, x)
    case Bar => true
    case Pre => false
    case Post => false
  }

  predicate ItemBarrier(s: State, it: Item) {
    match it
    case Norm(x) => Barrier(s, x)
    case Bar => true
    case Pre => false
    case Post => false
  }

  predicate ItemDiscard(s: State, it: Item) { it.Norm? && Discard(s, it.id) }

  /** blk_account_rq for a request that is STARTED. */
  predicate Accounted(s: State, it: Item) { ItemFs(s, it) || ItemDiscard(s, it) }

  /** The flags elv_dispatch_sort never moves a request past. */
  predicate Stops(s: State, it: Item) {
    it in s.soft || it in s.started || !it.Norm? || Hard(s, it.id)
  }

  // ----- blk-barrier.c ------------------------------------------------------

  /** blk_ordered_cur_seq: the lowest stage bit not yet set. */
  function CurSeq(o: OrdSeq): int {
    if o == IDLE then 0
    else if !o.started then 1
    else if !o.drain then STAGE_DRAIN
    else if !o.pre then STAGE_PRE
    else if !o.bar then STAGE_BAR
    else if !o.post then STAGE_POST
    else STAGE_DONE
  }

  /** blk_ordered_req_seq */
  function ReqSeq(s: State, it: Item): int {
    match it
    case Pre => STAGE_PRE
    case Bar => STAGE_BAR
    case Post => STAGE_POST
    case Norm(x) =>
      if !Fs(s, x) then STAGE_DRAIN
      else if s.orig < |s.reqs| && s.reqs[x].color == s.reqs[s.orig].color then STAGE_DRAIN
      else STAGE_DONE
  }

  function Record(orderr: int, err: int): int {
    if err != 0 && orderr == 0 then err else orderr
  }

  /** blk_ordered_complete_seq; the sequence is over exactly when the result is idle. */
  function CompleteSeq(s: State, mask: OrdSeq, err: int): State {
    var orderr := Record(s.orderr, err);
    var o := s.ordseq.Or(mask);
    var s1 := s.(orderr := orderr, reported := s.reported + [err], ordseq := o,
                 bug := s.bug || s.ordseq.Overlaps(mask));
    if CurSeq(o) != STAGE_DONE then s1
    else EndRequest(Unaccount(s1.(ordseq := IDLE), Norm(s.orig)), s.orig, orderr)
  }

  /** blk_dequeue_request counts a request that is STARTED and of an accounted kind. */
  function Account(s: State, it: Item): State {
    s.(inFlight := s.inFlight + if it in s.started && Accounted(s, it) then 1 else 0)
  }

  /** elv_completed_request takes the count back. */
  function Unaccount(s: State, it: Item): State {
    s.(inFlight := s.inFlight - if it in s.started && Accounted(s, it) then 1 else 0,
       started := s.started - {it})
  }

  function EndRequest(s: State, x: nat, err: int): State {
    s.(ended := s.ended[x := err], bug := s.bug || x in s.ended)
  }

  function If(b: bool, it: Item): seq<Item> { if b then [it] else [] }

  /** The value start_ordered gives q->ordered: an empty barrier has no data
      step, and ordering by tag needs at least one command to carry the tag. */
  function Masked(m: Mode, empty: bool): Mode {
    if !empty then m
    else
      var m1 := m.(doBar := false, doPost := false);
      if m1.byTag && !m1.doPre then m1.(byTag := false, byDrain := true) else m1
  }

  function ProxyList(m: Mode): seq<Item> {
    If(m.doPre, Pre) + If(m.doBar, Bar) + If(m.doPost, Post)
  }

  /** start_ordered on the barrier at the head of the queue. */
  function StartOrdered(s: State): State
    requires |s.queue| > 0 && s.queue[0].Norm? && s.queue[0].id < |s.reqs|
  {
    var b := s.queue[0].id;
    var m := Masked(s.mode, s.reqs[b].sectors == 0);
    var s1 := Account(s, Norm(b)).(
      orderr := 0, reported := [], ordered := m, ordseq := s.ordseq.(started := true), orig := b,
      queue := ProxyList(m) + s.queue[1..],
      started := s.started - {Pre, Bar, Post},
      soft := s.soft + {Pre, Bar, Post});
    var drains := m.byDrain && s1.inFlight != 0;
    CompleteSeq(s1, OrdSeq(false, !drains, !m.doPre, !m.doBar, !m.doPost), 0)
  }

  /** What blk_do_ordered makes of the head of the queue: it vanished, it must
      wait, or it may be handed out. */
  datatype Verdict = Gone | Wait | Ready(it: Item)

  const EOPNOTSUPP: int := 95

  /** blk_do_ordered on the head of a non-empty dispatch queue. */
  function DoOrdered(s: State): (State, Verdict)
    requires |s.queue| > 0
  {
    var it := s.queue[0];
    if s.ordseq == IDLE then
      if !ItemBarrier(s, it) || !it.Norm? then (s, Ready(it))
      else if s.mode != NONE then
        var s1 := StartOrdered(s);
        if s1.ordseq == IDLE then (s1, Gone)
        else if !s1.ordseq.drain || s1.queue == [] then (s1, Wait)
        else (s1, Ready(s1.queue[0]))
      else
        (EndRequest(s.(queue := s.queue[1..], started := s.started - {it}), it.id, -EOPNOTSUPP), Gone)
    else if !ItemFs(s, it) && it != Pre && it != Post then (s, Ready(it))
    else if s.ordered.byTag then
      (s, if ItemBarrier(s, it) && it != Bar then Wait else Ready(it))
    else
      (s.(warn := s.warn || ReqSeq(s, it) < CurSeq(s.ordseq)),
       if ReqSeq(s, it) > CurSeq(s.ordseq) then Wait else Ready(it))
  }

  // ----- elevator.c and blk-core.c ------------------------------------------

  function InsertAt<T>(q: seq<T>, at: nat, x: T): seq<T>
    requires at <= |q|
  {
    q[..at] + [x] + q[at..]
  }

  /** Where elv_dispatch_sort or elv_dispatch_add_tail may put a request: behind
      the last request it must not pass. */
  predicate MayDispatch(s: State, c: Choice) {
    && c.id in s.sorted
    && c.at <= |s.queue|
    && (forall k :: c.at <= k < |s.queue| ==>
          !Stops(s, s.queue[k]) && ItemDiscard(s, s.queue[k]) == Discard(s, c.id))
  }

  function ElvDispatch(s: State, c: Choice): State
    requires c.at <= |s.queue|
  {
    s.(sorted := s.sorted - {c.id}, queue := InsertAt(s.queue, c.at, Norm(c.id)))
  }

  /** elv_drain_elevator: the forced dispatches, in the order the elevator makes them. */
  function Drain(s: State, plan: seq<Choice>): State
    decreases plan
  {
    if plan == [] then s
    else if !MayDispatch(s, plan[0]) then s
    else Drain(ElvDispatch(s, plan[0]), plan[1..])
  }

  predicate MayDrain(s: State, plan: seq<Choice>)
    decreases plan
  {
    if plan == [] then s.sorted == {}
    else MayDispatch(s, plan[0]) && MayDrain(ElvDispatch(s, plan[0]), plan[1..])
  }

  /** Barriers and requests without elevator data are inserted at the back. */
  function Placement(r: Req, where: Where): Where {
    if where == Sort && (r.soft || r.hard || !r.elvpriv) then Back else where
  }

  /** __elv_add_request up to the insertion: color the request, toggle the color. */
  function Arrive(s: State, r: Req): State {
    s.(reqs := s.reqs + [r.(color := s.ordcolor)],
       ordcolor := if r.hard then !s.ordcolor else s.ordcolor)
  }

  function AddRequest(s: State, r: Req, where: Where, plan: seq<Choice>): State {
    var x := |s.reqs|;
    var s1 := Arrive(s, r);
    match Placement(r, where)
    case Front => s1.(soft := s1.soft + {Norm(x)}, queue := [Norm(x)] + s1.queue)
    case Back =>
      var s2 := Drain(s1, plan);
      s2.(soft := s2.soft + {Norm(x)}, queue := s2.queue + [Norm(x)])
    case Sort => s1.(sorted := s1.sorted + {x}, bug := s1.bug || !(r.fs || r.discard))
  }

  /** blk_start_request: take the head of the queue to the driver. */
  function Dequeue(s: State): State
    requires |s.queue| > 0
  {
    var it := s.queue[0];
    Account(s, it).(queue := s.queue[1..], flight := s.flight + {it})
  }

  /** One turn of __elv_next_request's inner loop inside blk_peek_request, then
      blk_start_request if the driver takes what it is shown. */
  function LookAt(s: State, take: bool): State
    requires |s.queue| > 0
  {
    var (s1, v) := DoOrdered(s);
    if !v.Ready? then s1
    else
      var s2 := s1.(started := s1.started + {v.it});
      if take && |s2.queue| > 0 then Dequeue(s2) else s2
  }

  /** The place elv_insert picks for a requeued request while a sequence runs. */
  function RequeuePlace(s: State, seqno: int, k: nat): (p: nat)
    requires k <= |s.queue|
    ensures k <= p <= |s.queue|
    ensures forall i :: k <= i < p ==> ReqSeq(s, s.queue[i]) < seqno
    ensures p < |s.queue| ==> seqno <= ReqSeq(s, s.queue[p])
    decreases |s.queue| - k
  {
    if k == |s.queue| || seqno <= ReqSeq(s, s.queue[k]) then k else RequeuePlace(s, seqno, k + 1)
  }

  /** elv_requeue_request */
  function RequeueItem(s: State, it: Item): State {
    var s1 := Unaccount(s, it).(flight := s.flight - {it}, soft := s.soft + {it});
    var p := if s.ordseq == IDLE then 0 else RequeuePlace(s1, ReqSeq(s1, it), 0);
    s1.(queue := InsertAt(s1.queue, p, it))
  }

  /** elv_completed_request, after the counters: does the drain stage end here? */
  function DrainCheck(s: State): State {
    if s.ordseq != IDLE && s.inFlight == 0 && CurSeq(s.ordseq) == STAGE_DRAIN
       && (s.queue == [] || ReqSeq(s, s.queue[0]) > STAGE_DRAIN)
    then CompleteSeq(s, IDLE.(drain := true), 0)
    else s
  }

  function Released(s: State, it: Item): State {
    Unaccount(s, it).(flight := s.flight - {it})
  }

  /** Completion of something the driver holds: the request's own end, or the
      end_io of a proxy. */
  function CompleteItem(s: State, it: Item, err: int): State {
    var s1 := Released(s, it);
    match it
    case Norm(x) => DrainCheck(EndRequest(s1, x, err))
    case Pre => CompleteSeq(DrainCheck(s1).(preDone := s1.preDone + {s.orig}), IDLE.(pre := true), err)
    case Bar => CompleteSeq(DrainCheck(s1).(barDone := s1.barDone + {s.orig}), IDLE.(bar := true), err)
    case Post => CompleteSeq(DrainCheck(s1).(postDone := s1.postDone + {s.orig}), IDLE.(post := true), err)
  }

  // ----- events and runs ----------------------------------------------------

  predicate Enabled(s: State, e: Event) {
    match e
    case Add(r, where, plan) =>
      && (Placement(r, where) == Back ==> MayDrain(Arrive(s, r), plan))
      && (Placement(r, where) == Sort ==> r.fs || r.discard)
    case Dispatch(c) => MayDispatch(s, c)
    case Look(_) => |s.queue| > 0
    case Requeue(it) => it in s.flight
    case PartialBar(_) => Bar in s.flight
    case Complete(it, _) => it in s.flight
  }

  function Apply(s: State, e: Event): State
    requires Enabled(s, e)
  {
    match e
    case Add(r, where, plan) => AddRequest(s, r, where, plan)
    case Dispatch(c) => ElvDispatch(s, c)
    case Look(take) => LookAt(s, take)
    case Requeue(it) => RequeueItem(s, it)
    case PartialBar(err) => s.(orderr := Record(s.orderr, err), reported := s.reported + [err])
    case Complete(it, err) => CompleteItem(s, it, err)
  }

  ghost predicate Runs(s: State, es: seq<Event>)
    decreases es
  {
    es == [] || (Enabled(s, es[0]) && Runs(Apply(s, es[0]), es[1..]))
  }

  ghost function Run(s: State, es: seq<Event>): State
    requires Runs(s, es)
    decreases es
  {
    if es == [] then s else Run(Apply(s, es[0]), es[1..])
  }
}
