/** The result path: result store, waker, result collector and poller
    (`src/maof/orchestrator/lifecycle.py`). */
module Lifecycle {
  import opened Base
  import opened Keys

  /** What a worker publishes after handling a task. */
  datatype Envelope = Envelope(key: Key, run: RunId, stepRef: StepId, taskId: string, taskType: string, output: Value)

  // ---------- the result store ----------

  predicate Matches(e: Envelope, run: RunId, step: Option<StepId>) {
    e.run == run && (step.None? || e.stepRef == step.value)
  }

  /** The stored envelopes of a run, or of one of its steps, in the order they were saved. */
  function Listed(entries: seq<Envelope>, run: RunId, step: Option<StepId>): seq<Envelope> {
    if entries == [] then []
    else
      var last := entries[|entries| - 1];
      Listed(entries[..|entries| - 1], run, step) + if Matches(last, run, step) then [last] else []
  }

  function CountOf(entries: seq<Envelope>, run: RunId, step: StepId): nat {
    |Listed(entries, run, Some(step))|
  }

  /** The output of the first result saved for a step: the one the executor uses. */
  function FirstOutput(entries: seq<Envelope>, run: RunId, step: StepId): Option<Value> {
    var found := Listed(entries, run, Some(step));
    if found == [] then None else Some(found[0].output)
  }

  ghost predicate DistinctKeys(entries: seq<Envelope>) {
    forall i, j | 0 <= i < j < |entries| :: entries[i].key != entries[j].key
  }

  predicate Holds(entries: seq<Envelope>, key: Key) {
    exists i | 0 <= i < |entries| :: entries[i].key == key
  }

  /** `InMemoryResultStore.save` on the stored sequence. */
  function Saved(entries: seq<Envelope>, e: Envelope): seq<Envelope> {
    if Holds(entries, e.key) then entries else entries + [e]
  }

  lemma {:induction false} ListedIsWhatMatches(entries: seq<Envelope>, run: RunId, step: Option<StepId>)
    ensures forall e :: e in Listed(entries, run, step) <==> e in entries && Matches(e, run, step)
    ensures DistinctKeys(entries) ==> DistinctKeys(Listed(entries, run, step))
  {
    if entries != [] {
      var rest, last := entries[..|entries| - 1], entries[|entries| - 1];
      ListedIsWhatMatches(rest, run, step);
      assert entries == rest + [last];
      if DistinctKeys(entries) {
        assert DistinctKeys(rest);
        var before := Listed(rest, run, step);
        forall i | 0 <= i < |before|
          ensures before[i].key != last.key
        {
          assert before[i] in rest;
          var j :| 0 <= j < |rest| && rest[j] == before[i];
          assert entries[j] == before[i];
        }
        assert DistinctKeys(before + [last]);
        assert DistinctKeys(before + []);
      }
    }
  }

  /** The output of a step is that of its first result: no result of the step stands before it. */
  lemma {:induction false} FirstOutputIsFirst(entries: seq<Envelope>, run: RunId, step: StepId) returns (i: nat)
    requires FirstOutput(entries, run, step).Some?
    ensures i < |entries| && entries[i].run == run && entries[i].stepRef == step
    ensures FirstOutput(entries, run, step) == Some(entries[i].output)
    ensures forall j | 0 <= j < i :: !(entries[j].run == run && entries[j].stepRef == step)
  {
    var n := |entries| - 1;
    if Listed(entries[..n], run, Some(step)) == [] {
      i := n;
      ListedIsWhatMatches(entries[..n], run, Some(step));
      assert forall j | 0 <= j < n :: entries[..n][j] in entries[..n] && entries[..n][j] == entries[j];
    } else {
      i := FirstOutputIsFirst(entries[..n], run, step);
      assert forall j | 0 <= j < n :: entries[..n][j] == entries[j];
    }
  }

  /** A later result of the same step never displaces the first one, and joins only fill up. */
  lemma ListedGrows(entries: seq<Envelope>, e: Envelope, run: RunId, step: Option<StepId>)
    ensures Listed(entries, run, step) <= Listed(Saved(entries, e), run, step)
  {
    assert (entries + [e])[..|entries|] == entries;
  }

  class InMemoryResultStore {
    var entries: seq<Envelope>

    ghost predicate Valid() reads this { DistinctKeys(entries) }

    constructor ()
      ensures Valid() && entries == []
    {
      entries := [];
    }

    method Save(e: Envelope) returns (fresh_: bool)
      requires Valid()
      modifies this
      ensures Valid() && entries == Saved(old(entries), e)
      ensures fresh_ <==> !Holds(old(entries), e.key)
    {
      if Holds(entries, e.key) {
        return false;
      }
      entries := entries + [e];
      return true;
    }

    method List(run: RunId, step: Option<StepId>) returns (found: seq<Envelope>)
      ensures found == Listed(entries, run, step)
    {
      found := [];
      for i := 0 to |entries|
        invariant found == Listed(entries[..i], run, step)
      {
        assert entries[..i + 1][..i] == entries[..i];
        if Matches(entries[i], run, step) { found := found + [entries[i]]; }
      }
      assert entries[..|entries|] == entries;
    }

    method Count(run: RunId, step: StepId) returns (n: nat)
      ensures n == CountOf(entries, run, step)
    {
      var found := List(run, Some(step));
      n := |found|;
    }
  }

  // ---------- the waker ----------

  datatype WakeCondition =
    | ResultsReady(step: Option<StepId>, expected: int)
    | Timer(at: Option<int>)
    | ExternalEvent(key: Option<string>)

  datatype Wake = Wake(run: RunId, condition: WakeCondition, fired: bool)

  /** What a sweep over the scheduled wakes looks for. Without a result store every join
      counts as satisfied. */
  datatype Trigger =
    | Clock(now: int)
    | Event(name: string)
    | Joins(entries: Option<seq<Envelope>>)

  predicate JoinSatisfied(run: RunId, step: StepId, expected: int, entries: Option<seq<Envelope>>) {
    entries.None? || CountOf(entries.value, run, step) >= expected
  }

  predicate Hits(t: Trigger, w: Wake) {
    match t
    case Clock(now) => w.condition.Timer? && w.condition.at.Some? && w.condition.at.value <= now
    case Event(name) => w.condition.ExternalEvent? && w.condition.key == Some(name)
    case Joins(entries) =>
      && w.condition.ResultsReady? && w.condition.step.Some?
      && JoinSatisfied(w.run, w.condition.step.value, w.condition.expected, entries)
  }

  predicate Claimable(t: Trigger, w: Wake) { !w.fired && Hits(t, w) }

  /** The entry waits for a time that has come. */
  predicate TimeHasCome(w: Wake, now: int) {
    w.condition.Timer? && w.condition.at.Some? && w.condition.at.value <= now
  }

  /** The entry waits for results of a step, and at least as many as it expects are stored; a waker
      without a store takes them to be there. */
  predicate ResultsAreThere(w: Wake, entries: Option<seq<Envelope>>) {
    && w.condition.ResultsReady? && w.condition.step.Some?
    && (entries.Some? ==> |Listed(entries.value, w.run, w.condition.step)| >= w.condition.expected)
  }

  lemma HitsExactly(now: int, entries: Option<seq<Envelope>>, name: string)
    ensures forall w :: Hits(Clock(now), w) <==> TimeHasCome(w, now)
    ensures forall w :: Hits(Joins(entries), w) <==> ResultsAreThere(w, entries)
    ensures forall w :: Hits(Event(name), w) <==> w.condition == ExternalEvent(Some(name))
  {
  }

  /** The wakes after a sweep: everything claimable has fired. */
  function Swept(wakes: seq<Wake>, t: Trigger): (r: seq<Wake>)
    ensures |r| == |wakes|
    ensures forall i | 0 <= i < |r| :: r[i] == wakes[i].(fired := wakes[i].fired || Hits(t, wakes[i]))
    ensures forall i | 0 <= i < |r| :: !Claimable(t, r[i])
  {
    seq(|wakes|, i requires 0 <= i < |wakes| => wakes[i].(fired := wakes[i].fired || Hits(t, wakes[i])))
  }

  /** The runs a sweep wakes, one for each claimed entry, in order. */
  function Woken(wakes: seq<Wake>, t: Trigger): seq<RunId> {
    if wakes == [] then []
    else
      var last := wakes[|wakes| - 1];
      Woken(wakes[..|wakes| - 1], t) + if Claimable(t, last) then [last.run] else []
  }

  predicate Awaits(w: Wake, run: RunId, step: StepId) {
    !w.fired && w.run == run && w.condition.ResultsReady? && w.condition.step == Some(step)
  }

  /** The place of the first unfired join of this run on this step. */
  function FirstAwaiting(wakes: seq<Wake>, run: RunId, step: StepId): (i: nat)
    ensures i <= |wakes|
    ensures i < |wakes| ==> Awaits(wakes[i], run, step)
    ensures forall j | 0 <= j < i :: !Awaits(wakes[j], run, step)
  {
    if wakes == [] then 0
    else if Awaits(wakes[0], run, step) then 0
    else
      var k := FirstAwaiting(wakes[1..], run, step);
      assert forall j | 0 < j < k + 1 :: wakes[j] == wakes[1..][j - 1];
      k + 1
  }

  /** `satisfy_results` looks at the first unfired join only. */
  predicate CanSatisfy(wakes: seq<Wake>, entries: Option<seq<Envelope>>, run: RunId, step: StepId) {
    var i := FirstAwaiting(wakes, run, step);
    i < |wakes| && JoinSatisfied(run, step, wakes[i].condition.expected, entries)
  }

  function Satisfied(wakes: seq<Wake>, entries: Option<seq<Envelope>>, run: RunId, step: StepId): seq<Wake> {
    var i := FirstAwaiting(wakes, run, step);
    if CanSatisfy(wakes, entries, run, step) then wakes[i := wakes[i].(fired := true)] else wakes
  }

  lemma {:induction false} WokenIsWhatIsClaimed(wakes: seq<Wake>, t: Trigger)
    ensures forall r ::
      r in Woken(wakes, t) <==> exists i | 0 <= i < |wakes| :: Claimable(t, wakes[i]) && wakes[i].run == r
  {
    if wakes != [] {
      var rest, last := wakes[..|wakes| - 1], wakes[|wakes| - 1];
      WokenIsWhatIsClaimed(rest, t);
      forall r
        ensures r in Woken(wakes, t) <==> exists i | 0 <= i < |wakes| :: Claimable(t, wakes[i]) && wakes[i].run == r
      {
        if r in Woken(rest, t) {
          var i :| 0 <= i < |rest| && Claimable(t, rest[i]) && rest[i].run == r;
          assert wakes[i] == rest[i];
        }
        if i :| 0 <= i < |wakes| && Claimable(t, wakes[i]) && wakes[i].run == r {
          if i < |rest| { assert rest[i] == wakes[i]; }
        }
      }
    }
  }

  class InMemoryRunWaker {
    const results: InMemoryResultStore?
    var scheduled: seq<Wake>

    constructor (results: InMemoryResultStore?)
      ensures this.results == results && scheduled == []
    {
      this.results := results;
      scheduled := [];
    }

    function Entries(): Option<seq<Envelope>>
      reads results
    {
      if results == null then None else Some(results.entries)
    }

    method Schedule(run: RunId, condition: WakeCondition)
      modifies this
      ensures scheduled == old(scheduled) + [Wake(run, condition, false)]
    {
      scheduled := scheduled + [Wake(run, condition, false)];
    }

    method SatisfyResults(run: RunId, step: StepId) returns (claimed: bool)
      modifies this
      ensures claimed == CanSatisfy(old(scheduled), Entries(), run, step)
      ensures scheduled == Satisfied(old(scheduled), Entries(), run, step)
    {
      for i := 0 to |scheduled|
        invariant scheduled == old(scheduled)
        invariant forall j | 0 <= j < i :: !Awaits(scheduled[j], run, step)
      {
        if Awaits(scheduled[i], run, step) {
          assert FirstAwaiting(scheduled, run, step) == i;
          if results != null {
            var ready := results.Count(run, step);
            if ready < scheduled[i].condition.expected {
              return false;
            }
          }
          scheduled := scheduled[i := scheduled[i].(fired := true)];
          return true;
        }
      }
      return false;
    }

    /** The loop shared by `fire_event`, `due_timers` and `due_joins`: each entry is looked
        at once, and fired in place when the trigger hits it. */
    method Sweep(t: Trigger) returns (woken: seq<RunId>)
      requires t.Joins? ==> t.entries == Entries()
      modifies this
      ensures scheduled == Swept(old(scheduled), t)
      ensures woken == Woken(old(scheduled), t)
    {
      woken := [];
      var n := |scheduled|;
      for i := 0 to n
        invariant |scheduled| == n == |old(scheduled)|
        invariant woken == Woken(old(scheduled)[..i], t)
        invariant forall j | 0 <= j < i :: scheduled[j] == Swept(old(scheduled), t)[j]
        invariant forall j | i <= j < n :: scheduled[j] == old(scheduled)[j]
      {
        assert old(scheduled)[..i + 1][..i] == old(scheduled)[..i];
        if Claimable(t, scheduled[i]) {
          woken := woken + [scheduled[i].run];
          scheduled := scheduled[i := scheduled[i].(fired := true)];
        }
      }
      assert old(scheduled)[..n] == old(scheduled);
    }

    method FireEvent(name: string) returns (woken: seq<RunId>)
      modifies this
      ensures scheduled == Swept(old(scheduled), Event(name)) && woken == Woken(old(scheduled), Event(name))
    {
      woken := Sweep(Event(name));
    }

    method DueTimers(now: int) returns (woken: seq<RunId>)
      modifies this
      ensures scheduled == Swept(old(scheduled), Clock(now)) && woken == Woken(old(scheduled), Clock(now))
    {
      woken := Sweep(Clock(now));
    }

    method DueJoins() returns (woken: seq<RunId>)
      modifies this
      ensures scheduled == Swept(old(scheduled), Joins(Entries())) && woken == Woken(old(scheduled), Joins(Entries()))
    {
      woken := Sweep(Joins(Entries()));
    }
  }

  // ---------- collector and poller ----------

  datatype Collected = Rejected | Duplicate | Kept | KeptAndResumed(run: RunId)

  class ResultCollector {
    const results: InMemoryResultStore
    const waker: InMemoryRunWaker

    constructor (results: InMemoryResultStore, waker: InMemoryRunWaker)
      ensures this.results == results && this.waker == waker
    {
      this.results, this.waker := results, waker;
    }

    /** One delivery of a result message. `verified` and `conforms` are the answers of the
        signature check and of the validator; a rejected message raises and is never stored.
        `KeptAndResumed` names the run whose resume is called next. */
    method Handle(e: Envelope, verified: bool, conforms: bool) returns (r: Collected)
      requires results.Valid() && waker.results == results
      modifies results, waker
      ensures results.Valid()
      ensures r.Rejected? <==> !verified || !conforms
      ensures r.Rejected? ==> results.entries == old(results.entries) && waker.scheduled == old(waker.scheduled)
      ensures !r.Rejected? ==> results.entries == Saved(old(results.entries), e)
      ensures r.Duplicate? <==> verified && conforms && Holds(old(results.entries), e.key)
      ensures r.Duplicate? ==> waker.scheduled == old(waker.scheduled)
      ensures r.Kept? || r.KeptAndResumed? ==>
        && waker.scheduled == Satisfied(old(waker.scheduled), Some(results.entries), e.run, e.stepRef)
        && (r.KeptAndResumed? <==> CanSatisfy(old(waker.scheduled), Some(results.entries), e.run, e.stepRef))
      ensures r.KeptAndResumed? ==> r.run == e.run
    {
      if !verified || !conforms {
        return Rejected;
      }
      var isFresh := results.Save(e);
      if !isFresh {
        return Duplicate;
      }
      var claimed := waker.SatisfyResults(e.run, e.stepRef);
      return if claimed then KeptAndResumed(e.run) else Kept;
    }
  }

  class WakerPoller {
    const waker: InMemoryRunWaker

    constructor (waker: InMemoryRunWaker)
      ensures this.waker == waker
    {
      this.waker := waker;
    }

    /** One poll: due timers first, then the joins whose results are already there. Every
        run with a due timer or a satisfied join is in the answer, which lists the runs
        that are resumed next; nothing claimable stays behind. */
    method Tick(now: int) returns (due: seq<RunId>)
      modifies waker
      ensures waker.scheduled == Swept(Swept(old(waker.scheduled), Clock(now)), Joins(waker.Entries()))
      ensures forall r :: r in due <==> exists i | 0 <= i < |old(waker.scheduled)| ::
        && old(waker.scheduled)[i].run == r && !old(waker.scheduled)[i].fired
        && (TimeHasCome(old(waker.scheduled)[i], now) || ResultsAreThere(old(waker.scheduled)[i], waker.Entries()))
      ensures forall i | 0 <= i < |waker.scheduled| && !waker.scheduled[i].fired ::
        !TimeHasCome(waker.scheduled[i], now) && !ResultsAreThere(waker.scheduled[i], waker.Entries())
    {
      ghost var before := waker.scheduled;
      due := waker.DueTimers(now);
      ghost var timers := due;
      ghost var middle := waker.scheduled;
      var joined := waker.DueJoins();
      for i := 0 to |joined|
        invariant forall r :: r in due <==> r in timers || r in joined[..i]
      {
        if joined[i] !in due { due := due + [joined[i]]; }
      }
      assert joined[..|joined|] == joined;
      WokenIsWhatIsClaimed(before, Clock(now));
      WokenIsWhatIsClaimed(middle, Joins(waker.Entries()));
      TimersAndJoinsAreApart(before, now, waker.Entries());
      HitsExactly(now, waker.Entries(), "");
    }
  }

  /** No entry is both a timer and a join, so sweeping one leaves the other claimable. */
  lemma TimersAndJoinsAreApart(wakes: seq<Wake>, now: int, entries: Option<seq<Envelope>>)
    ensures forall i | 0 <= i < |wakes| ::
      Claimable(Joins(entries), Swept(wakes, Clock(now))[i]) <==> Claimable(Joins(entries), wakes[i])
  {
  }

  // ---------- every run of the waker ----------

  /** The waker, the store it counts in, and the places of the entries claimed so far. */
  datatype WakerRun = WakerRun(wakes: seq<Wake>, entries: seq<Envelope>, claims: seq<nat>)

  datatype WakerStep =
    | Store(e: Envelope)
    | Schedule(run: RunId, condition: WakeCondition)
    | Satisfy(run: RunId, step: StepId)
    | Fire(name: string)
    | Poll(now: int)
    | SweepJoins

  /** The places a sweep claims, in order. */
  function Claims(wakes: seq<Wake>, t: Trigger): (r: seq<nat>)
    ensures forall i :: i in r <==> 0 <= i < |wakes| && Claimable(t, wakes[i])
    ensures forall j | 0 <= j < |r| :: r[j] < |wakes|
    ensures Distinct(r)
  {
    if wakes == [] then []
    else
      var n := |wakes| - 1;
      var before := Claims(wakes[..n], t);
      assert forall i | 0 <= i < n :: wakes[..n][i] == wakes[i];
      assert forall j | 0 <= j < |before| :: before[j] < n;
      before + if Claimable(t, wakes[n]) then [n] else []
  }

  function SweepOf(s: WakerRun, t: Trigger): WakerRun {
    s.(wakes := Swept(s.wakes, t), claims := s.claims + Claims(s.wakes, t))
  }

  function WakerNext(s: WakerRun, a: WakerStep): WakerRun {
    match a
    case Store(e) => s.(entries := Saved(s.entries, e))
    case Schedule(run, condition) => s.(wakes := s.wakes + [Wake(run, condition, false)])
    case Satisfy(run, step) =>
      s.(wakes := Satisfied(s.wakes, Some(s.entries), run, step),
         claims := s.claims +
           if CanSatisfy(s.wakes, Some(s.entries), run, step) then [FirstAwaiting(s.wakes, run, step)] else [])
    case Fire(name) => SweepOf(s, Event(name))
    case Poll(now) => SweepOf(s, Clock(now))
    case SweepJoins => SweepOf(s, Joins(Some(s.entries)))
  }

  function WakerAfter(steps: seq<WakerStep>): WakerRun {
    if steps == [] then WakerRun([], [], [])
    else WakerNext(WakerAfter(steps[..|steps| - 1]), steps[|steps| - 1])
  }

  /** A fired join had enough results, each stored under its own key. */
  ghost predicate JoinWasSatisfied(w: Wake, entries: seq<Envelope>) {
    w.fired && w.condition.ResultsReady? ==>
      && w.condition.step.Some?
      && CountOf(entries, w.run, w.condition.step.value) >= w.condition.expected
  }

  ghost predicate WakerSound(s: WakerRun) {
    && DistinctKeys(s.entries)
    && Distinct(s.claims)
    && (forall i :: i in s.claims <==> 0 <= i < |s.wakes| && s.wakes[i].fired)
    && forall i | 0 <= i < |s.wakes| :: JoinWasSatisfied(s.wakes[i], s.entries)
  }

  lemma SweepKeepsSound(s: WakerRun, t: Trigger)
    requires WakerSound(s) && (t.Joins? ==> t.entries == Some(s.entries))
    ensures WakerSound(SweepOf(s, t))
  {
    var s', c := SweepOf(s, t), Claims(s.wakes, t);
    assert forall i | i in c :: i !in s.claims;
    assert forall i, j | 0 <= i < j < |s'.claims| :: s'.claims[i] != s'.claims[j] by {
      forall i, j | 0 <= i < j < |s'.claims|
        ensures s'.claims[i] != s'.claims[j]
      {
        if i < |s.claims| <= j { assert s'.claims[i] in s.claims && s'.claims[j] in c; }
      }
    }
  }

  /** Whatever the order of results, schedules, events and polls: no entry is claimed twice,
      and a join that fired has at least `expected` results, all under different keys. */
  lemma {:induction false} EveryWakeFiresAtMostOnce(steps: seq<WakerStep>)
    ensures WakerSound(WakerAfter(steps))
  {
    if steps != [] {
      EveryWakeFiresAtMostOnce(steps[..|steps| - 1]);
      var s, a := WakerAfter(steps[..|steps| - 1]), steps[|steps| - 1];
      match a
      case Store(e) =>
        forall i | 0 <= i < |s.wakes|
          ensures JoinWasSatisfied(s.wakes[i], Saved(s.entries, e))
        {
          if s.wakes[i].fired && s.wakes[i].condition.ResultsReady? {
            ListedGrows(s.entries, e, s.wakes[i].run, s.wakes[i].condition.step);
          }
        }
      case Schedule(_, _) =>
      case Satisfy(run, step) =>
        if CanSatisfy(s.wakes, Some(s.entries), run, step) {
          assert FirstAwaiting(s.wakes, run, step) !in s.claims;
        }
      case Fire(name) => SweepKeepsSound(s, Event(name));
      case Poll(now) => SweepKeepsSound(s, Clock(now));
      case SweepJoins => SweepKeepsSound(s, Joins(Some(s.entries)));
    }
  }
}
