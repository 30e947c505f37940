/** How a drive ends, over every reachable state: the status, the checkpoint and the wake entries
    it leaves, whatever the segment met. */
module Outcomes {
  import opened Base
  import opened Definition
  import opened Lifecycle
  import opened Executor
  import opened ExecutorLaws
  import opened Choices
  import opened Workers
  import opened Protocol
  import opened Control
  import opened Records
  import opened Settling
  import opened Guarantees
  import opened Gaps
  import Driver

  /** The action drives the run from its checkpoint: a claimed wake is resumed, or a run that a
      death has left running is recovered. */
  ghost predicate DrivesRun(s: Sys, id: RunId, w: World, a: Action) {
    && id in s.runs && s.runs[id].saved.Some?
    && ((a == Resume(id, w) && id in s.claimed) || (a == Recover(id, w) && s.runs[id].status.Running?))
  }

  /** Between the two states the drive has changed nothing outside its run. */
  ghost predicate OthersStay(s: Sys, s': Sys, id: RunId) {
    && s'.runs.Keys == s.runs.Keys && (forall other | other in s.runs && other != id :: s'.runs[other] == s.runs[other])
    && s'.store == s.store && s'.jobs == s.jobs && s'.begun == s.begun && s'.signals == s.signals && s'.now == s.now
  }

  /** The drive has sent nothing and run nothing. */
  ghost predicate NothingDone(s: Sys, s': Sys) {
    s'.fx == s.fx && s'.wakes == s.wakes && s'.subruns == s.subruns
  }

  lemma DriveIs(accepts: Envelope -> bool, s: Sys, id: RunId, w: World, a: Action)
    requires Reachable(accepts, s) && DrivesRun(s, id, w, a)
    ensures var s0 := s.(claimed := if a.Resume? then s.claimed - multiset{id} else s.claimed);
      Next(accepts, s, a) == Driven(s0, s.runs[id], s.runs[id].saved.value, w)
    ensures s.runs[id].plan.run == id && ValidPlan(s.runs[id].plan) && CheckpointOk(s.runs[id])
  {
    RunIsControlled(accepts, s, id);
    assert s.(claimed := s.claimed) == s;
  }

  // ---------- a run that is cancelled, or complete already ----------

  /** A run whose cancellation was asked for ends CANCELLED when it is driven next, with nothing
      else changed, unless its stage is complete: then it ends COMPLETED. */
  lemma CancelledRunEnds(accepts: Envelope -> bool, s: Sys, id: RunId, w: World, a: Action)
    requires Reachable(accepts, s) && DrivesRun(s, id, w, a) && !w.closing.DiesAtOnce?
    requires s.runs[id].cancel || s.runs[id].done
    ensures var s' := Next(accepts, s, a);
      && OthersStay(s, s', id) && NothingDone(s, s')
      && s'.runs[id].status == (if s.runs[id].done then Driver.Completed else Driver.Cancelled)
      && s'.runs[id].saved == s.runs[id].saved && s'.runs[id].parks == s.runs[id].parks
  {
    DriveIs(accepts, s, id, w, a);
  }

  /** A process that dies before the stage leaves a running run as it was. */
  lemma DeathAtOnceLeaves(accepts: Envelope -> bool, s: Sys, id: RunId, w: World, a: Action)
    requires Reachable(accepts, s) && DrivesRun(s, id, w, a) && w.closing.DiesAtOnce?
    ensures var s' := Next(accepts, s, a);
      && OthersStay(s, s', id) && NothingDone(s, s') && s'.runs[id].status.Running?
      && s'.runs[id].saved == s.runs[id].saved && s'.runs[id].parks == s.runs[id].parks
  {
    DriveIs(accepts, s, id, w, a);
  }

  // ---------- a run whose stage is executed ----------

  /** The run goes on where its checkpoint says. */
  ghost predicate GoesOn(s: Sys, id: RunId, w: World, a: Action) {
    DrivesRun(s, id, w, a) && !s.runs[id].cancel && !s.runs[id].done && !w.closing.DiesAtOnce?
  }

  function NextSegmentOf(s: Sys, id: RunId, w: World): Segment
    requires id in s.runs && s.runs[id].saved.Some?
  {
    SegmentOf(s, s.runs[id], s.runs[id].saved.value, w)
  }

  /** The checkpoint and the entries are as they were. */
  ghost predicate NothingSaved(s: Sys, s': Sys, r: Run, r': Run) {
    r'.saved == r.saved && r'.done == r.done && r'.parks == r.parks && s'.wakes == s.wakes
  }

  /** What each way a segment ends leaves of the run and the entries, deaths on the way out
      included: a park leaves the checkpoint, one new unfired entry and WAITING, in that order. */
  ghost predicate Leaves(s: Sys, s': Sys, r: Run, r': Run, seg: Segment, closing: Closing) {
    match seg.outcome
    case Waits(condition, on) =>
      && r'.saved == Some(seg.flow) && !r'.done
      && s'.wakes == (if closing.DiesAfterSave? then s.wakes else s.wakes + [Wake(r.plan.run, condition, false)])
      && (if closing.GoesThrough? then
            r'.status.Waiting? && r'.parks == r.parks + [Park(on, |s.wakes|, s.now, seg.flow)]
          else r'.status.Running? && r'.parks == r.parks)
    case Finished =>
      && r'.saved == Some(seg.flow) && r'.done && s'.wakes == s.wakes
      && (if closing.GoesThrough? then r'.status.Completed? else r'.status.Running?)
    case ApprovalDenied(_) => r'.status.Failed? && NothingSaved(s, s', r, r')
    case Stalled(_) => false
    case Crashed(_) => r'.status.Running? && NothingSaved(s, s', r, r')
  }

  lemma SegmentLeaves(accepts: Envelope -> bool, s: Sys, id: RunId, w: World, a: Action)
    requires Reachable(accepts, s) && GoesOn(s, id, w, a)
    ensures var s' := Next(accepts, s, a);
      OthersStay(s, s', id) && Leaves(s, s', s.runs[id], s'.runs[id], NextSegmentOf(s, id, w), w.closing)
  {
    DriveIs(accepts, s, id, w, a);
    DriveEnds(s.runs[id].plan, w.(now := s.now), s.store, s.runs[id].saved.value);
  }

  /** A run that starts executes its stage from the beginning, uncancelled; a plan that is not
      accepted, or that has a run already, starts nothing. */
  lemma StartLeaves(accepts: Envelope -> bool, s: Sys, p: Plan, checkpointed: bool, w: World)
    ensures var s' := Next(accepts, s, Start(p, checkpointed, w));
      if p.run in s.runs || !ValidPlan(p) then s' == s
      else
        && s'.runs.Keys == s.runs.Keys + {p.run} && s'.runs[p.run].plan == p && !s'.runs[p.run].cancel
        && (forall other | other in s.runs :: s'.runs[other] == s.runs[other]) && s'.store == s.store
        && (!w.closing.DiesAtOnce? ==>
              Leaves(s, s', NewRun(p, checkpointed), s'.runs[p.run],
                     SegmentOf(s, NewRun(p, checkpointed), FRESH_FLOW, w), w.closing))
  {
    if p.run !in s.runs && ValidPlan(p) {
      DriveEnds(p, w.(now := s.now), s.store, FRESH_FLOW);
      DrivenLeaves(s, NewRun(p, checkpointed), FRESH_FLOW, w);
    }
  }

  lemma DrivenLeaves(s: Sys, r: Run, flow: Flow, w: World)
    requires !r.cancel && !r.done && !SegmentOf(s, r, flow, w).outcome.Stalled?
    ensures var s' := Driven(s, r, flow, w);
      && r.plan.run in s'.runs && s'.runs.Keys == s.runs.Keys + {r.plan.run} && s'.store == s.store
      && s'.runs[r.plan.run].plan == r.plan && !s'.runs[r.plan.run].cancel
      && (forall other | other in s.runs && other != r.plan.run :: s'.runs[other] == s.runs[other])
      && (!w.closing.DiesAtOnce? ==> Leaves(s, s', r, s'.runs[r.plan.run], SegmentOf(s, r, flow, w), w.closing))
  {
    if !w.closing.DiesAtOnce? { AfterLeaves(s, r, SegmentOf(s, r, flow, w), w.closing); }
  }

  lemma AfterLeaves(s: Sys, r: Run, seg: Segment, closing: Closing)
    requires !seg.outcome.Stalled? && !r.done && !closing.DiesAtOnce?
    ensures var s' := AfterSegment(s, r, seg, closing);
      && s'.runs == s.runs[r.plan.run := s'.runs[r.plan.run]] && s'.store == s.store
      && s'.runs[r.plan.run].plan == r.plan && s'.runs[r.plan.run].cancel == r.cancel
      && Leaves(s, s', r, s'.runs[r.plan.run], seg, closing)
  {
  }

  /** Nothing is driven without a claim, or a run left running, and a checkpoint. */
  lemma OthersAreNotDriven(accepts: Envelope -> bool, s: Sys, id: RunId, w: World)
    ensures id !in s.claimed || id !in s.runs || s.runs[id].saved.None? ==> Next(accepts, s, Resume(id, w)) == s
    ensures id !in s.runs || !s.runs[id].status.Running? || s.runs[id].saved.None? ==>
      Next(accepts, s, Recover(id, w)) == s
  {
  }

  /** The broker gets exactly the task messages of the segment, subagents run exactly if it runs
      any, and nobody else gets anything. */
  lemma SegmentPublishes(accepts: Envelope -> bool, s: Sys, id: RunId, w: World, a: Action)
    requires Reachable(accepts, s) && GoesOn(s, id, w, a)
    ensures var s', events := Next(accepts, s, a), NextSegmentOf(s, id, w).events;
      && (forall k :: k in s'.fx.tasks <==> k in s.fx.tasks || SentKey(events, k))
      && s.fx.tasks <= s'.fx.tasks && s'.fx.replies == s.fx.replies && s'.fx.ledger == s.fx.ledger
      && s.subruns <= s'.subruns && (s'.subruns != s.subruns <==> exists i | 0 <= i < |events| :: events[i].Ran?)
  {
    var events := NextSegmentOf(s, id, w).events;
    DriveIs(accepts, s, id, w, a);
    EffectsAreOk(accepts, s);
    PublishedLaw(s.fx, events);
    NewTasksAreSent(s.fx, events);
    SubrunsAreRun(id, events);
  }

  lemma {:induction false} SubrunsAreRun(run: RunId, events: seq<Executor.Event>)
    ensures Subruns(run, events) != [] <==> exists i | 0 <= i < |events| :: events[i].Ran?
  {
    if events != [] {
      var n := |events| - 1;
      SubrunsAreRun(run, events[..n]);
      assert forall i | 0 <= i < n :: events[..n][i] == events[i];
    }
  }

  lemma EffectsAreOk(accepts: Envelope -> bool, s: Sys)
    requires Reachable(accepts, s)
    ensures EffectsOk(s.fx)
  {
    AlwaysSound(accepts, s);
  }

  /** How a segment that meets no fault ends. */
  lemma FaultlessEnds(p: Plan, w: World, store: seq<Envelope>, flow: Flow)
    requires ValidPlan(p) && FlowFits(p, flow) && forall x :: w.fault(x).NoFault?
    ensures var seg := Drive(p, w, store, flow);
      && (seg.outcome.ApprovalDenied? <==> exists t :: Blocked(p, w, seg.flow, t))
      && (seg.outcome.Finished? <==> Ids(p.steps) <= seg.flow.outputs.Keys)
      && (GatesAreUsable(p) ==> !seg.outcome.Crashed?)
  {
    var seg, k := Drive(p, w, store, flow), WalkOf(p, w, store, flow);
    DeniedExactly(p, w, store, flow);
    DriveEnds(p, w, store, flow);
    WalkTells(p, w, store, flow);
    DriveWalks(p, w, store, flow);
    assert seg == Conclude(p, w.now, k);
    if k.halt.Going? && k.gate.Some? {
      GateIsOpen(p, Opening(p, store, flow), k);
      if GatesAreUsable(p) { ConcludesAtGate(p, w, store, flow); }
    }
    if Ids(p.steps) <= seg.flow.outputs.Keys { CompleteIsFinished(p, w, store, flow); }
  }

  lemma NothingPending(ids: seq<StepId>, pending: set<StepId>)
    requires forall id :: id in ids <==> id in pending
    ensures pending == {} ==> ids == []
  {
    if ids != [] { assert ids[0] in pending; }
  }

  lemma CompleteIsFinished(p: Plan, w: World, store: seq<Envelope>, flow: Flow)
    requires ValidPlan(p) && forall x :: w.fault(x).NoFault?
    requires Ids(p.steps) <= Drive(p, w, store, flow).flow.outputs.Keys
    ensures Drive(p, w, store, flow).outcome.Finished?
  {
    var k := WalkOf(p, w, store, flow);
    assert Drive(p, w, store, flow) == Conclude(p, w.now, k);
    DeniedExactly(p, w, store, flow);
    WalkTells(p, w, store, flow);
    DriveWalks(p, w, store, flow);
    if k.gate.Some? { GateIsOpen(p, Opening(p, store, flow), k); }
    PendingIdsLaw(p.steps, k.flow.outputs);
    NothingPending(PendingIds(p.steps, k.flow.outputs), Pending(p.steps, k.flow.outputs));
  }

  /** The status a drive without faults and deaths leaves: FAILED exactly when a task is left that
      only waits for an approval nobody gives, COMPLETED exactly when every step is complete, and
      otherwise, if its gates can come about, WAITING. */
  lemma StatusExactly(accepts: Envelope -> bool, s: Sys, id: RunId, w: World, a: Action)
    requires Reachable(accepts, s) && GoesOn(s, id, w, a) && w.closing.GoesThrough?
    requires (forall x :: w.fault(x).NoFault?) && GatesAreUsable(s.runs[id].plan)
    ensures var p, flow := s.runs[id].plan, NextSegmentOf(s, id, w).flow;
      var s' := Next(accepts, s, a);
      && id in s'.runs
      && (s'.runs[id].status.Failed? <==> exists t :: Blocked(p, w.(now := s.now), flow, t))
      && (s'.runs[id].status.Completed? <==> Ids(p.steps) <= flow.outputs.Keys)
      && (s'.runs[id].status.Waiting? <==> !s'.runs[id].status.Failed? && !s'.runs[id].status.Completed?)
  {
    SegmentLeaves(accepts, s, id, w, a);
    DriveIs(accepts, s, id, w, a);
    FaultlessEnds(s.runs[id].plan, w.(now := s.now), s.store, s.runs[id].saved.value);
  }
}
