/** The whole system as one state machine: runs, their checkpoints, the waker, the result
    store, the guarded effects and the workers. One action is one drive segment, one step of a
    worker, one delivery at the collector, one sweep of the waker, or an outside event. A
    segment may be cut short by an exception or the death of the process: before the stage, at
    any dispatch, between an effect and the guard's record of it, and between the checkpoint,
    the wake entry and the status at its end. */
module Protocol {
  import opened Base
  import opened Definition
  import opened Keys
  import opened Lifecycle
  import opened Executor
  import opened Workers
  import Driver

  /** One time a run parked: the step it parked on, the place of its wake entry, the time, and
      the checkpoint it left. */
  datatype Park = Park(step: StepId, wake: nat, at: int, flow: Flow)

  /** A durable run. `done` says that the stage is complete in the checkpoint. Four histories:
      `parks`; `lost`, that a segment was cut short with effects its checkpoint does not tell;
      `skipped`, the gates for which one was cut short between the checkpoint of the park and
      the wake entry; `torn`, that one was cut short between an entry and the WAITING status. */
  datatype Run = Run(
    plan: Plan,
    status: Driver.Status,
    cancel: bool,
    saved: Option<Flow>,
    done: bool,
    parks: seq<Park>,
    lost: bool,
    skipped: set<StepId>,
    torn: bool)

  /** A delivery in progress at a worker; its output once the agent has answered. */
  datatype Job = Job(worker: Worker, message: Message, output: Option<Value>)

  /** `claimed` holds the runs whose wake was claimed and whose resume has not begun. `begun`
      is the history of `agent.handle` calls, `subruns` that of subagents run in process, by
      run, and `signals` that of external events. */
  datatype Sys = Sys(
    runs: map<RunId, Run>,
    wakes: seq<Wake>,
    claimed: multiset<RunId>,
    store: seq<Envelope>,
    fx: Effects,
    jobs: map<nat, Job>,
    begun: seq<Key>,
    subruns: seq<RunId>,
    signals: set<string>,
    now: int)

  const EMPTY := Sys(map[], [], multiset{}, [], NO_EFFECTS, map[], [], [], {}, 0)

  datatype Action =
    | Start(plan: Plan, checkpointed: bool, w: World)   // run; an earlier stage may have left a checkpoint
    | Resume(run: RunId, w: World)                      // resume_run, for a claimed wake
    | Recover(run: RunId, w: World)                     // resume_run, for a run a crash has left RUNNING
    | Begin(job: nat, worker: Worker, message: Message)
    | AgentMoves(job: nat, move: Move)
    | Reply(job: nat, kept: bool)                       // the guard may lose its record of the reply
    | Drop(job: nat)                                    // the handler dies; the broker redelivers later
    | Collect(e: Envelope, dies: bool)                  // dying after saving, it leaves waking to a poll
    | PollTimers
    | PollJoins
    | Signal(name: string)
    | Advance(dt: nat)
    | Cancel(run: RunId)
  {
    /** The action drives a run. */
    predicate Drives() { Start? || Resume? || Recover? }
    /** The action is a step of a worker. */
    predicate Works() { Begin? || AgentMoves? || Reply? || Drop? }
    /** The action touches the wakes and the clock only. */
    predicate Ticks() { PollTimers? || PollJoins? || Signal? || Advance? }
  }

  // ---------- one drive segment ----------

  /** The task messages of a segment, through the guard. */
  function Published(fx: Effects, events: seq<Executor.Event>): Effects {
    if events == [] then fx
    else
      var fx', last := Published(fx, events[..|events| - 1]), events[|events| - 1];
      if last.Sent? then PublishTaskOnce(fx', last.key, last.kept) else fx'
  }

  /** The subagents a segment ran, each noted under the run. */
  function Subruns(run: RunId, events: seq<Executor.Event>): seq<RunId> {
    if events == [] then []
    else Subruns(run, events[..|events| - 1]) + if events[|events| - 1].Ran? then [run] else []
  }

  /** What `_drive` makes of the run; `wake` is the place the next wake entry gets. */
  function RunAfter(r: Run, seg: Segment, wake: nat, now: int, closing: Closing): Run {
    match seg.outcome
    case Finished =>
      r.(status := if closing.GoesThrough? then Driver.Completed else Driver.Running,
         saved := Some(seg.flow), done := true)
    case Waits(condition, on) =>
      if closing.GoesThrough? then
        r.(status := Driver.Waiting, saved := Some(seg.flow), parks := r.parks + [Park(on, wake, now, seg.flow)])
      else
        r.(status := Driver.Running, saved := Some(seg.flow), lost := true, torn := r.torn || !closing.DiesAfterSave?,
           skipped := r.skipped + if closing.DiesAfterSave? && !condition.ResultsReady? then {on} else {})
    case ApprovalDenied(_) => r.(status := Driver.Failed)
    case Stalled(_) => r.(status := Driver.Running, lost := true)
    case Crashed(_) => r.(status := Driver.Running, lost := true)
  }

  lemma SamePlan(r: Run, seg: Segment, wake: nat, now: int, closing: Closing)
    ensures RunAfter(r, seg, wake, now, closing).plan == r.plan
  {
  }

  function WakesAfter(wakes: seq<Wake>, run: RunId, seg: Segment, closing: Closing): seq<Wake> {
    if seg.outcome.Waits? && !closing.DiesAfterSave? then wakes + [Wake(run, seg.outcome.condition, false)] else wakes
  }

  function SegmentOf(s: Sys, r: Run, flow: Flow, w: World): Segment {
    Drive(r.plan, w.(now := s.now), s.store, flow)
  }

  function AfterSegment(s: Sys, r: Run, seg: Segment, closing: Closing): Sys {
    var id := r.plan.run;
    s.(runs := s.runs[id := RunAfter(r, seg, |s.wakes|, s.now, closing)],
       wakes := WakesAfter(s.wakes, id, seg, closing),
       fx := Published(s.fx, seg.events),
       subruns := s.subruns + Subruns(id, seg.events))
  }

  /** The run takes another status, and nothing else happens. */
  function Marked(s: Sys, r: Run, status: Driver.Status): Sys {
    s.(runs := s.runs[r.plan.run := r.(status := status)])
  }

  /** `_drive` of a run in the pipeline of the workflow stage, from a checkpointed state: a
      stage that is complete there is skipped, before the cancel flag is looked at. */
  function Driven(s: Sys, r: Run, flow: Flow, w: World): Sys {
    if w.closing.DiesAtOnce? then Marked(s, r, Driver.Running)
    else if r.done then Marked(s, r, Driver.Completed)
    else if r.cancel then Marked(s, r, Driver.Cancelled)
    else AfterSegment(s, r, SegmentOf(s, r, flow, w), w.closing)
  }

  // ---------- the steps of the system ----------

  /** The plans that become runs: accepted by validation, every step with a name. */
  ghost predicate ValidPlan(p: Plan) {
    WellFormed(p.steps) && "" !in Ids(p.steps)
  }

  function NewRun(p: Plan, checkpointed: bool): Run {
    Run(p, Driver.Running, false, if checkpointed then Some(FRESH_FLOW) else None, false, [], false, {}, false)
  }

  /** Where the next segment of the run starts from. */
  function Resumption(r: Run): Flow {
    if r.saved.Some? then r.saved.value else FRESH_FLOW
  }

  predicate IsCancelled(s: Sys, run: RunId) {
    run in s.runs && (s.runs[run].cancel || s.runs[run].status.Cancelled?)
  }

  function SweepFor(s: Sys, t: Trigger): Sys {
    s.(wakes := Swept(s.wakes, t), claimed := s.claimed + multiset(Woken(s.wakes, t)))
  }

  function Collecting(accepts: Envelope -> bool, s: Sys, e: Envelope, dies: bool): Sys {
    if e !in s.fx.replies || !accepts(e) || Holds(s.store, e.key) then s
    else if dies then s.(store := s.store + [e])
    else
      var store := s.store + [e];
      s.(store := store,
         wakes := Satisfied(s.wakes, Some(store), e.run, e.stepRef),
         claimed := s.claimed +
           if CanSatisfy(s.wakes, Some(store), e.run, e.stepRef) then multiset{e.run} else multiset{})
  }

  function JobStep(s: Sys, a: Action): Sys
    requires a.Works()
  {
    if a.Begin? then
      var admitted := Admitting(a.worker, a.message, true, IsCancelled(s, a.message.key.run));
      if a.job in s.jobs || a.message.key !in s.fx.tasks || !admitted.Admit? then s
      else s.(jobs := s.jobs[a.job := Job(a.worker, a.message, None)], begun := s.begun + [a.message.key])
    else if a.job !in s.jobs then s
    else
      var j := s.jobs[a.job];
      match a
      case AgentMoves(n, move) =>
        if j.output.Some? then s
        else
          var (fx, output) := Acting(s.fx, j.message.key, move);
          s.(fx := fx, jobs := if output.None? then s.jobs - {n} else s.jobs[n := j.(output := output)])
      case Reply(n, kept) =>
        if j.output.None? then s
        else s.(fx := Replying(j.worker, s.fx, j.message, j.output.value, kept), jobs := s.jobs - {n})
      case Drop(n) => s.(jobs := s.jobs - {n})
  }

  function TickStep(s: Sys, a: Action): Sys
    requires a.Ticks()
  {
    match a
    case PollTimers => SweepFor(s, Clock(s.now))
    case PollJoins => SweepFor(s, Joins(Some(s.store)))
    case Signal(name) => SweepFor(s.(signals := s.signals + {name}), Lifecycle.Event(name))
    case Advance(dt) => s.(now := s.now + dt)
  }

  ghost function RunStep(s: Sys, a: Action): Sys
    requires a.Drives()
  {
    match a
    case Start(p, checkpointed, w) =>
      if p.run in s.runs || !ValidPlan(p) then s else Driven(s, NewRun(p, checkpointed), FRESH_FLOW, w)
    case Resume(id, w) =>
      if id !in s.claimed || id !in s.runs || s.runs[id].saved.None? then s
      else Driven(s.(claimed := s.claimed - multiset{id}), s.runs[id], s.runs[id].saved.value, w)
    case Recover(id, w) =>
      if id !in s.runs || !s.runs[id].status.Running? || s.runs[id].saved.None? then s
      else Driven(s, s.runs[id], s.runs[id].saved.value, w)
  }

  function CancelStep(s: Sys, id: RunId): Sys {
    if id in s.runs then s.(runs := s.runs[id := s.runs[id].(cancel := true)]) else s
  }

  ghost function Next(accepts: Envelope -> bool, s: Sys, a: Action): Sys {
    if a.Drives() then RunStep(s, a)
    else if a.Works() then JobStep(s, a)
    else if a.Ticks() then TickStep(s, a)
    else if a.Collect? then Collecting(accepts, s, a.e, a.dies)
    else CancelStep(s, a.run)
  }

  // ---------- every history of the system ----------

  ghost predicate Moves(accepts: Envelope -> bool, s: Sys, s': Sys) {
    exists a :: s' == Next(accepts, s, a)
  }

  /** Consecutive states of the system, one action apart. */
  ghost predicate IsHistory(accepts: Envelope -> bool, h: seq<Sys>) {
    h != [] && forall i {:trigger Moves(accepts, h[i], h[i + 1])} | 0 <= i < |h| - 1 :: Moves(accepts, h[i], h[i + 1])
  }

  /** Some sequence of actions leads from `s` to `s'`. */
  ghost predicate Reaches(accepts: Envelope -> bool, s: Sys, s': Sys) {
    exists h :: IsHistory(accepts, h) && h[0] == s && h[|h| - 1] == s'
  }

  ghost predicate Reachable(accepts: Envelope -> bool, s: Sys) {
    Reaches(accepts, EMPTY, s)
  }

  lemma EmptyIsReachable(accepts: Envelope -> bool)
    ensures Reachable(accepts, EMPTY)
  {
    assert IsHistory(accepts, [EMPTY]) && [EMPTY][0] == EMPTY;
  }

  lemma NextIsReachable(accepts: Envelope -> bool, s: Sys, a: Action)
    requires Reachable(accepts, s)
    ensures Reachable(accepts, Next(accepts, s, a))
  {
    var h :| IsHistory(accepts, h) && h[0] == EMPTY && h[|h| - 1] == s;
    OneMoveMore(accepts, h, Next(accepts, s, a), a);
  }

  lemma OneMoveMore(accepts: Envelope -> bool, h: seq<Sys>, s: Sys, a: Action)
    requires IsHistory(accepts, h) && h[0] == EMPTY && s == Next(accepts, h[|h| - 1], a)
    ensures Reachable(accepts, s)
  {
    var more := h + [s];
    forall i {:trigger Moves(accepts, more[i], more[i + 1])} | 0 <= i < |more| - 1
      ensures Moves(accepts, more[i], more[i + 1])
    {
      if i < |h| - 1 { assert Moves(accepts, h[i], h[i + 1]); }
    }
    assert IsHistory(accepts, more) && more[0] == EMPTY && more[|more| - 1] == s;
  }

  lemma {:induction false} HistoryIsReachable(accepts: Envelope -> bool, h: seq<Sys>, i: nat)
    requires IsHistory(accepts, h) && Reachable(accepts, h[0]) && i < |h|
    ensures Reachable(accepts, h[i])
  {
    if i > 0 {
      var j := i - 1;
      HistoryIsReachable(accepts, h, j);
      assert Moves(accepts, h[j], h[j + 1]);
      MoveIsReachable(accepts, h[j], h[j + 1]);
    }
  }

  lemma MoveIsReachable(accepts: Envelope -> bool, s: Sys, s': Sys)
    requires Reachable(accepts, s) && Moves(accepts, s, s')
    ensures Reachable(accepts, s')
  {
    var a :| s' == Next(accepts, s, a);
    NextIsReachable(accepts, s, a);
  }
}
