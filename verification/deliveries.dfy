/** A task message at a worker, step by step in the system: when a delivery begins, what each move
    of the agent does, and what is published at its end. */
module Deliveries {
  import opened Base
  import opened Keys
  import opened Lifecycle
  import opened Workers
  import opened Admission
  import opened Protocol

  /** Nothing but the jobs, the history of handlers and what the guard protects has changed. */
  ghost predicate OnlyWork(s: Sys, s': Sys) {
    && s'.runs == s.runs && s'.wakes == s.wakes && s'.claimed == s.claimed && s'.store == s.store
    && s'.subruns == s.subruns && s'.signals == s.signals && s'.now == s.now && s'.fx.tasks == s.fx.tasks
  }

  /** The run was asked to stop, or has stopped. */
  predicate RunIsStopped(s: Sys, id: RunId) {
    id in s.runs && (s.runs[id].cancel || s.runs[id].status.Cancelled?)
  }

  /** The agent is called exactly if the message was sent, its run is not stopped and every check of
      the worker passes; otherwise nothing happens. */
  lemma BeginsExactly(accepts: Envelope -> bool, s: Sys, job: nat, worker: Worker, m: Message)
    ensures var s' := Next(accepts, s, Begin(job, worker, m));
      var begins := && job !in s.jobs && m.key in s.fx.tasks && !RunIsStopped(s, m.key.run)
                    && TypeIsAllowed(worker, m) && BodyConforms(worker, m) && worker.knows(m.key.taskType);
      && OnlyWork(s, s') && s'.fx == s.fx
      && s'.jobs == (if begins then s.jobs[job := Job(worker, m, None)] else s.jobs)
      && s'.begun == (if begins then s.begun + [m.key] else s.begun)
  {
  }

  /** What a move of the agent leaves: an answer, after a repeated side effect the recorded one, or
      no delivery any more when it raises or its record is lost. */
  lemma MovesExactly(accepts: Envelope -> bool, s: Sys, job: nat, move: Move)
    requires job in s.jobs && s.jobs[job].output.None?
    ensures var s', j, k := Next(accepts, s, AgentMoves(job, move)), s.jobs[job], s.jobs[job].message.key;
      && OnlyWork(s, s') && s'.begun == s.begun && s'.fx.replies == s.fx.replies
      && (if move.Commits? then Committed(s.fx, k, s'.fx) else s'.fx == s.fx)
      && match move
         case Raises => s'.jobs == s.jobs - {job}
         case Answers(v) => s'.jobs == s.jobs[job := j.(output := Some(v))]
         case Commits(v, kept) =>
           if Effect(k) in s.fx.guard then s'.jobs == s.jobs[job := j.(output := Some(s.fx.guard[Effect(k)]))]
           else if kept then s'.jobs == s.jobs[job := j.(output := Some(v))]
           else s'.jobs == s.jobs - {job}
  {
  }

  /** The delivery ends; its answer is published, once, if it conforms and there is somewhere to
      reply to. */
  lemma RepliesExactly(accepts: Envelope -> bool, s: Sys, job: nat, kept: bool)
    requires job in s.jobs && s.jobs[job].output.Some?
    ensures var s', j := Next(accepts, s, Reply(job, kept)), s.jobs[job];
      && OnlyWork(s, s') && s'.begun == s.begun && s'.jobs == s.jobs - {job} && s'.fx.ledger == s.fx.ledger
      && exists h :: Answered(j.worker, s.fx, j.message, j.output.value, kept, s'.fx, h)
  {
    var j := s.jobs[job];
    ReplyIs(j.message.key, j.output.value);
    var publishes := && AnswerConforms(j.worker, j.message, j.output.value) && HasWhereToReply(j.worker, j.message)
                     && PublishResult(j.message.key) !in s.fx.guard;
    var h := if !AnswerConforms(j.worker, j.message, j.output.value) then BadResult
             else if publishes && !kept then ReplyFailed else Done;
    assert Answered(j.worker, s.fx, j.message, j.output.value, kept, Next(accepts, s, Reply(job, kept)).fx, h);
  }

  /** A delivery may be dropped at any moment, and then nothing of it has happened. */
  lemma DropsExactly(accepts: Envelope -> bool, s: Sys, job: nat)
    ensures Next(accepts, s, Drop(job)) == s.(jobs := s.jobs - {job})
  {
    if job !in s.jobs { assert s.jobs - {job} == s.jobs; }
  }
}
