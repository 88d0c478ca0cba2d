/** internal/state/attempt.go: what the attempt at a step says. */
module Attempts {
  import opened JsonValues
  import opened TaskTree
  import opened RunState
  import opened RunSteps
  import Plans

  /** The attempt is at the current step of the plan: it has the gaps of that step. */
  predicate AtCurrentStep(a: AttemptSummary, p: Plans.Plan) {
    && a.step == p.current && a.planRevision == p.revision
    && (forall s <- p.steps :: s.id == p.current ==> a.gaps == s.gaps)
    && ((forall s <- p.steps :: s.id != p.current) ==> a.gaps == [])
  }

  /** The results of the attempt are the tasks of the batch, in order, and were not there before. */
  predicate ResultsAre(a: AttemptSummary, was: TaskState, now: TaskState, work: seq<Work>) {
    |a.results| == |work| &&
    forall i :: 0 <= i < |work| ==>
      && a.results[i] in now.records && a.results[i] !in was.records
      && now.records[a.results[i]].work == work[i] && now.records[a.results[i]].parent == Top(was)
  }

  /** A batch below a plan begins an attempt at its current step, whose results are the tasks of the batch. */
  lemma BatchAttempts(s: State, work: seq<Work>)
    requires Valid(s) && s.tasks.stack != [] && Top(s.tasks) in s.tasks.records
      && s.tasks.records[Top(s.tasks)].plan.Just?
    requires work != [] && forall i :: 0 <= i < |work| ==> work[i].Agent?
    ensures var b, was := BatchState(s, work), AttemptsOf(s.tasks, Top(s.tasks));
      var a := AttemptsOf(b.tasks, Top(s.tasks));
      && a.Just? && AtCurrentStep(a.get, s.tasks.records[Top(s.tasks)].plan.get)
        && ResultsAre(a.get, s.tasks, b.tasks, work)
      && a.get.outcome.InProgress? && a.get.reason == ""
      && (if was.Just? then a.get.total == was.get.total + 1 && a.get.consecutive == was.get.consecutive
          else a.get.total == 1 && a.get.consecutive == 0)
  {
    hide Valid, QueueAgents, Moves, Queued, Step, AtCurrentStep, ResultsAre, NextAttempt;
    var top, ids := Top(s.tasks), Numbers(s.created, |work|);
    var a := AttemptBegun(s, ids);
    var t := s.tasks.records[top];
    ValidTop(s);
    ValidPlans(s);
    AttemptBegunSteps(s, ids);
    StepValid(s, a);
    BegunTop(s, a, ids);
    QueueAgentsMoves(a, work);
    NewNumber(s);
    ScopeOf(t, ids);
    ResultsOf(s, a, QueueAgents(a, work), work, NextAttempt(t, ids));
  }

  lemma ScopeOf(t: Task, ids: seq<TaskId>)
    requires t.plan.Just? && Plans.DistinctSteps(t.plan.get.steps)
    ensures var a := NextAttempt(t, ids);
      && AtCurrentStep(a, t.plan.get) && a.results == ids && a.outcome.InProgress? && a.reason == ""
      && (if t.attempts.Just? then a.total == t.attempts.get.total + 1 && a.consecutive == t.attempts.get.consecutive
          else a.total == 1 && a.consecutive == 0)
  {
    var p := t.plan.get;
    forall s | s in p.steps && s.id == p.current ensures Plans.Find(p.steps, p.current) == Just(s) {
      var i :| 0 <= i < |p.steps| && p.steps[i] == s;
      Plans.FindAt(p.steps, i);
    }
  }

  lemma ResultsOf(s: State, a: State, b: State, work: seq<Work>, attempt: AttemptSummary)
    requires Queued(a, b, work) && a.created == s.created && Top(a.tasks) == Top(s.tasks)
    requires forall id :: id in a.tasks.records <==> id in s.tasks.records
    requires (forall id <- s.tasks.records :: id <= s.created) && attempt.results == Numbers(s.created, |work|)
    requires Top(s.tasks) in a.tasks.records && a.tasks.records[Top(s.tasks)].attempts == Just(attempt)
    ensures ResultsAre(attempt, s.tasks, b.tasks, work) && AttemptsOf(b.tasks, Top(s.tasks)) == Just(attempt)
  {
    forall i | 0 <= i < |work|
      ensures attempt.results[i] in b.tasks.records && attempt.results[i] !in s.tasks.records
      ensures b.tasks.records[attempt.results[i]].work == work[i]
        && b.tasks.records[attempt.results[i]].parent == Top(s.tasks)
    {
      assert attempt.results[i] == s.created + 1 + i;
      assert b.tasks.records[a.created + 1 + i] == AgentTask(a.created + 1 + i, Top(a.tasks), work[i]);
    }
  }

  /** What a reconciliation says of the attempt in progress, once; everything else of it stays. */
  lemma AttemptReported(s: State, id: TaskId, progress: bool, reason: string)
    requires CanFinishAttempt(s, id)
    ensures var was, b := AttemptsOf(s.tasks, id).get, AttemptDone(s, id, progress, reason);
      var a := AttemptsOf(b.tasks, id);
      && a.Just? && !CanFinishAttempt(b, id) && a.get.reason == reason && (a.get.outcome.Progress? <==> progress)
      && a.get.step == was.step && a.get.planRevision == was.planRevision && a.get.gaps == was.gaps
      && a.get.results == was.results && a.get.total == was.total
      && a.get.consecutive == (if progress then 0 else was.consecutive + 1)
        && (a.get.replan <==> a.get.consecutive >= 3)
  {
  }
}
