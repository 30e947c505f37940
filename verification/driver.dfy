/** The stage driver with its checkpoints and cooperative cancellation
    (`src/maof/orchestrator/l1.py`, `src/maof/runs/checkpoint.py`, `src/maof/runs/store.py`). */
module Driver {
  import opened Base

  datatype Status = Running | Waiting | Completed | Failed | Cancelled

  /** How executing a stage ends. `Dies` is any exception the driver does not handle, or the
      death of the process, after the stage began; `DiesBefore` is one between two stages. */
  datatype StageResult = Advances | Parks | Denied | Dies | DiesBefore

  /** What one segment meets at each stage: whether an operator has asked for cancellation
      by the time the driver looks, and how the stage ends. */
  datatype Weather = Weather(asked: string -> bool, result: string -> StageResult)

  datatype Event = Asked | Started(stage: string) | Checkpointed(stage: string)

  /** A run: its status and cancel flag in the run store, the completed stages recorded in
      its checkpoint, and what has happened so far. */
  datatype Run = Run(status: Status, cancel: bool, saved: Option<set<string>>, log: seq<Event>)

  const NEW_RUN := Run(Running, false, None, [])

  function Asking(r: Run, asked: bool): Run {
    if asked && !r.cancel then r.(cancel := true, log := r.log + [Asked]) else r
  }

  /** The loop of `_drive` from the `i`-th stage on. */
  function DriveFrom(stages: seq<string>, i: nat, done: set<string>, r: Run, w: Weather): Run
    requires i <= |stages|
    decreases |stages| - i
  {
    if i == |stages| then r.(status := Completed)
    else if stages[i] in done then DriveFrom(stages, i + 1, done, r, w)
    else
      var s := stages[i];
      var r1 := Asking(r, w.asked(s));
      if r1.cancel then r1.(status := Cancelled)
      else
        match w.result(s)
        case DiesBefore => r1
        case Dies => r1.(log := r1.log + [Started(s)])
        case Denied => r1.(status := Failed, log := r1.log + [Started(s)])
        case Parks => r1.(status := Waiting, saved := Some(done), log := r1.log + [Started(s)])
        case Advances =>
          DriveFrom(stages, i + 1, done + {s},
            r1.(saved := Some(done + {s}), log := r1.log + [Started(s)] + [Checkpointed(s)]), w)
  }

  /** `run` for the first segment, `resume_run` for later ones; without a checkpoint a resume
      is refused. */
  function Segment(stages: seq<string>, first: bool, r: Run, w: Weather): Run {
    if first then DriveFrom(stages, 0, {}, r.(status := Running), w)
    else if r.saved.None? then r
    else DriveFrom(stages, 0, r.saved.value, r.(status := Running), w)
  }

  /** A run after any sequence of segments, each of which may park, die or be cancelled. */
  function After(stages: seq<string>, weathers: seq<Weather>): Run {
    if weathers == [] then NEW_RUN
    else
      var n := |weathers| - 1;
      Segment(stages, n == 0, After(stages, weathers[..n]), weathers[n])
  }

  function Prefix(stages: seq<string>, k: nat): set<string>
    requires k <= |stages|
  {
    set i | 0 <= i < k :: stages[i]
  }

  ghost predicate IsPrefix(stages: seq<string>, done: set<string>) {
    exists k | 0 <= k <= |stages| :: done == Prefix(stages, k)
  }

  /** Nothing runs again after its checkpoint. */
  ghost predicate NoRerun(log: seq<Event>) {
    forall i, j | 0 <= i < j < |log| && log[i].Checkpointed? :: log[j] != Started(log[i].stage)
  }

  /** Nothing begins after cancellation was asked for. */
  ghost predicate NoStartAfterCancel(log: seq<Event>) {
    forall i, j | 0 <= i < j < |log| && log[i].Asked? :: !log[j].Started?
  }

  ghost predicate RunOk(stages: seq<string>, r: Run) {
    && NoRerun(r.log) && NoStartAfterCancel(r.log)
    && (forall i | 0 <= i < |r.log| && r.log[i].Asked? :: r.cancel)
    && (r.saved.Some? ==> IsPrefix(stages, r.saved.value))
    && (forall i | 0 <= i < |r.log| && r.log[i].Checkpointed? :: r.saved.Some? && r.log[i].stage in r.saved.value)
  }

  lemma Starting(stages: seq<string>, r: Run, done: set<string>, s: string)
    requires RunOk(stages, r) && !r.cancel && s !in done && (r.saved.Some? ==> r.saved.value <= done)
    ensures RunOk(stages, r.(log := r.log + [Started(s)]))
  {
  }

  lemma Checkpointing(stages: seq<string>, r: Run, done: set<string>, s: string)
    requires RunOk(stages, r) && IsPrefix(stages, done + {s}) && (r.saved.Some? ==> r.saved.value <= done)
    ensures RunOk(stages, r.(saved := Some(done + {s}), log := r.log + [Checkpointed(s)]))
  {
  }

  lemma {:induction false} DriveKeepsOk(stages: seq<string>, i: nat, k: nat, done: set<string>, r: Run, w: Weather)
    requires Distinct(stages) && i <= k <= |stages| && done == Prefix(stages, k)
    requires RunOk(stages, r) && (r.saved.Some? ==> r.saved.value <= done)
    ensures RunOk(stages, DriveFrom(stages, i, done, r, w))
    decreases |stages| - i
  {
    if i < k {
      assert stages[i] in done;
      DriveKeepsOk(stages, i + 1, k, done, r, w);
    } else if i < |stages| {
      var s := stages[i];
      assert s !in done;
      var r1 := Asking(r, w.asked(s));
      assert RunOk(stages, r1);
      if !r1.cancel {
        Starting(stages, r1, done, s);
        if w.result(s).Advances? {
          var r2 := r1.(log := r1.log + [Started(s)]);
          assert done + {s} == Prefix(stages, i + 1);
          Checkpointing(stages, r2, done, s);
          assert r2.log + [Checkpointed(s)] == r1.log + [Started(s)] + [Checkpointed(s)];
          var r3 := r2.(saved := Some(done + {s}), log := r2.log + [Checkpointed(s)]);
          DriveKeepsOk(stages, i + 1, i + 1, done + {s}, r3, w);
        }
      }
    }
  }

  /** Over any sequence of park, crash, cancel and resume segments: the completed stages in the
      checkpoint are a prefix of the pipeline, a checkpointed stage never starts again, and no
      stage starts once cancellation was asked for. */
  lemma {:induction false} StagesRunOnceInOrder(stages: seq<string>, weathers: seq<Weather>)
    requires Distinct(stages)
    ensures var r := After(stages, weathers);
      && (r.saved.Some? ==> IsPrefix(stages, r.saved.value))
      && NoRerun(r.log) && NoStartAfterCancel(r.log)
    ensures RunOk(stages, After(stages, weathers))
  {
    if weathers != [] {
      var n := |weathers| - 1;
      StagesRunOnceInOrder(stages, weathers[..n]);
      var r := After(stages, weathers[..n]);
      if n == 0 {
        assert {} == Prefix(stages, 0);
        DriveKeepsOk(stages, 0, 0, {}, r.(status := Running), weathers[n]);
      } else if r.saved.Some? {
        var k :| 0 <= k <= |stages| && r.saved.value == Prefix(stages, k);
        DriveKeepsOk(stages, 0, k, r.saved.value, r.(status := Running), weathers[n]);
      }
    }
  }

  /** A segment that ends COMPLETED has every stage in its checkpoint. */
  lemma {:induction false} CompletedMeansAllStages(stages: seq<string>, i: nat, done: set<string>, r: Run, w: Weather)
    requires i <= |stages| && Prefix(stages, i) <= done && r.status.Running?
    requires r.saved == Some(done) || (done == {} && i == 0 && r.saved.None?)
    ensures var r' := DriveFrom(stages, i, done, r, w);
      r'.status.Completed? && stages != [] ==> r'.saved.Some? && forall j | 0 <= j < |stages| ::
            stages[j] in r'.saved.value
    decreases |stages| - i
  {
    if i < |stages| {
      assert Prefix(stages, i + 1) == Prefix(stages, i) + {stages[i]};
      var s := stages[i];
      if s in done {
        CompletedMeansAllStages(stages, i + 1, done, r, w);
      } else if !Asking(r, w.asked(s)).cancel && w.result(s).Advances? {
        var r1 := Asking(r, w.asked(s));
        CompletedMeansAllStages(stages, i + 1, done + {s},
          r1.(saved := Some(done + {s}), log := r1.log + [Started(s)] + [Checkpointed(s)]), w);
      }
    } else {
      assert forall j | 0 <= j < |stages| :: stages[j] in Prefix(stages, i);
    }
  }

  /** Over any sequence of segments: a run that is COMPLETED has every stage in its checkpoint. */
  lemma {:induction false} CompletedRunHasAllStages(stages: seq<string>, weathers: seq<Weather>)
    requires stages != [] && After(stages, weathers).status.Completed?
    ensures var r := After(stages, weathers);
      r.saved.Some? && forall j | 0 <= j < |stages| :: stages[j] in r.saved.value
  {
    var n := |weathers| - 1;
    var r := After(stages, weathers[..n]);
    if n == 0 {
      CompletedMeansAllStages(stages, 0, {}, r.(status := Running), weathers[n]);
    } else if r.saved.None? {
      CompletedRunHasAllStages(stages, weathers[..n]);
    } else {
      CompletedMeansAllStages(stages, 0, r.saved.value, r.(status := Running), weathers[n]);
    }
  }

  // ---------- how a segment ends ----------

  /** Cancellation has been asked for when the driver looks before the `n`-th stage. */
  ghost predicate AskedBy(stages: seq<string>, i: nat, done: set<string>, r: Run, w: Weather, n: nat)
    requires n < |stages|
  {
    r.cancel || exists j | i <= j <= n :: stages[j] !in done && w.asked(stages[j])
  }

  /** The stages before the `n`-th are complete already, or they advance uncancelled. */
  ghost predicate GetsTo(stages: seq<string>, i: nat, done: set<string>, r: Run, w: Weather, n: nat)
    requires n <= |stages|
  {
    forall j | i <= j < n && stages[j] !in done :: !AskedBy(stages, i, done, r, w, j) && w.result(stages[j]).Advances?
  }

  /** The completed stages when the driver comes to the `n`-th. */
  function DoneBy(stages: seq<string>, i: nat, done: set<string>, n: nat): set<string>
    requires n <= |stages|
  {
    done + set j | i <= j < n :: stages[j]
  }

  /** The segment ends at the `n`-th stage, the first that does not advance, with the status the
      source gives it; past the last stage it is complete. */
  ghost predicate EndsAt(stages: seq<string>, i: nat, done: set<string>, r: Run, w: Weather, r': Run, n: nat) {
    && i <= n <= |stages| && GetsTo(stages, i, done, r, w, n)
    && if n == |stages| then r'.status.Completed?
       else
         && stages[n] !in done
         && if AskedBy(stages, i, done, r, w, n) then r'.status.Cancelled? && r'.cancel
            else match w.result(stages[n])
              case Advances => false
              case Parks => r'.status.Waiting? && r'.saved == Some(DoneBy(stages, i, done, n))
              case Denied => r'.status.Failed?
              case Dies => r'.status == r.status
              case DiesBefore => r'.status == r.status
  }

  /** What the checkpoint holds then: the stages completed by then, if any has advanced or the run
      parked, and otherwise what it held. */
  ghost predicate SavesDone(stages: seq<string>, i: nat, done: set<string>, r: Run, r': Run, n: nat)
    requires i <= n <= |stages|
  {
    && (r'.saved == r.saved || r'.saved == Some(DoneBy(stages, i, done, n)))
    && (r'.saved != Some(DoneBy(stages, i, done, n)) ==> forall j | i <= j < n :: stages[j] in done)
  }

  lemma {:induction false} SegmentEnds(stages: seq<string>, i: nat, done: set<string>, r: Run, w: Weather)
    returns (n: nat)
    requires Distinct(stages) && i <= |stages|
    ensures EndsAt(stages, i, done, r, w, DriveFrom(stages, i, done, r, w), n)
    ensures SavesDone(stages, i, done, r, DriveFrom(stages, i, done, r, w), n)
    decreases |stages| - i
  {
    if i == |stages| {
      n := i;
      assert DoneBy(stages, i, done, n) == done;
    } else if stages[i] in done {
      n := SegmentEnds(stages, i + 1, done, r, w);
      assert DoneBy(stages, i, done, n) == DoneBy(stages, i + 1, done, n);
    } else {
      var s, r1 := stages[i], Asking(r, w.asked(stages[i]));
      if r1.cancel || !w.result(s).Advances? {
        n := i;
        assert DoneBy(stages, i, done, n) == done;
      } else {
        var r2 := r1.(saved := Some(done + {s}), log := r1.log + [Started(s)] + [Checkpointed(s)]);
        n := SegmentEnds(stages, i + 1, done + {s}, r2, w);
        assert DoneBy(stages, i, done, n) == DoneBy(stages, i + 1, done + {s}, n);
        assert forall j | i < j < |stages| :: stages[j] != s;
        if forall j | i < j < n :: stages[j] in done { assert DoneBy(stages, i, done, n) == done + {s}; }
      }
    }
  }

  // ---------- the driver object ----------

  /** One run of `DefaultL1` with its run store entry and its checkpointer. */
  class DefaultL1 {
    const stages: seq<string>
    var status: Status
    var cancelRequested: bool
    var checkpoint: Option<set<string>>
    var log: seq<Event>

    constructor (stages: seq<string>)
      ensures this.stages == stages && Snapshot() == NEW_RUN
    {
      this.stages := stages;
      status, cancelRequested, checkpoint, log := Running, false, None, [];
    }

    function Snapshot(): Run
      reads this
    {
      Run(status, cancelRequested, checkpoint, log)
    }

    method RequestCancel()
      modifies this`cancelRequested, this`log
      ensures Snapshot() == Asking(old(Snapshot()), true)
    {
      if !cancelRequested {
        cancelRequested := true;
        log := log + [Asked];
      }
    }

    method Drive(sc: set<string>, w: Weather)
      modifies this
      ensures Snapshot() == DriveFrom(stages, 0, sc, old(Snapshot()).(status := Running), w)
    {
      var completed := sc;
      status := Running;
      for i := 0 to |stages|
        invariant DriveFrom(stages, 0, sc, old(Snapshot()).(status := Running), w)
              == DriveFrom(stages, i, completed, Snapshot(), w)
      {
        var s := stages[i];
        if s !in completed {
          if w.asked(s) { RequestCancel(); }
          if cancelRequested {
            status := Cancelled;
            return;
          }
          if w.result(s).DiesBefore? {
            return;
          }
          log := log + [Started(s)];
          match w.result(s)
          case Parks =>
            checkpoint, status := Some(completed), Waiting;
            return;
          case Denied =>
            status := Failed;
            return;
          case Dies =>
            return;
          case Advances =>
            completed := completed + {s};
            checkpoint := Some(completed);
            log := log + [Checkpointed(s)];
        }
      }
      status := Completed;
    }

    method Start(w: Weather)
      modifies this
      ensures Snapshot() == Segment(stages, true, old(Snapshot()), w)
    {
      Drive({}, w);
    }

    /** `resume_run`; refused when there is no checkpoint. */
    method Resume(w: Weather) returns (ok: bool)
      modifies this
      ensures ok <==> old(checkpoint).Some?
      ensures Snapshot() == Segment(stages, false, old(Snapshot()), w)
    {
      if checkpoint.None? {
        return false;
      }
      Drive(checkpoint.value, w);
      return true;
    }
  }
}
