/**
 The path loop inside the transition system: a task whose steps answer the way LND would on
 each path ends, under every interleaving, as the loop of pay_invoice does run on its own.
 */
module PayInvoiceRuns {
  import opened Common
  import opened Payments
  import opened PaymentRuns
  import opened OfferHandlers

  /** The step is how the task at `pc` would go on if LND behaved like `attempts`. */
  ghost predicate Answers(pc: Pc, step: Step, attempts: seq<Attempt>) {
    && (pc.Paying? && pc.next < |pc.invoice.paths| && pc.next < |attempts| ==>
          var path, a := pc.invoice.paths[pc.next], attempts[pc.next];
          && (step.LookupFails? ==> Aborts(path, a))
          && (step.SendFails? ==> !Aborts(path, a) && !Dispatches(a))
          && (step.SendSucceeds? ==> !Aborts(path, a) && Dispatches(a)))
    && (pc.Tracking? && pc.path < |attempts| ==>
          && (step.TrackFails? ==> !Settles(attempts[pc.path]))
          && (step.TrackSucceeds? ==> Settles(attempts[pc.path])))
  }

  /** Every step of task `t` answers like `attempts`. */
  ghost predicate AnswersLike(steps: seq<Step>, t: TaskId, attempts: seq<Attempt>) {
    steps == [] ||
    var before, step := steps[..|steps| - 1], steps[|steps| - 1];
    && AnswersLike(before, t, attempts)
    && (Actor(step) == Some(t) && t in Run(before).tasks ==> Answers(Run(before).tasks[t].pc, step, attempts))
  }

  ghost predicate NoneStops(paths: seq<PaymentPath>, attempts: seq<Attempt>, n: nat)
    requires |attempts| == |paths| && n <= |paths|
  {
    forall j :: 0 <= j < n ==> !Stops(paths[j], attempts[j])
  }

  function FailureOf(e: OfferError): Failure {
    if e.RouteError? then RouteFailure else PaymentFailure
  }

  /** The error left behind by the first `n` paths. */
  function ErrorAfter(attempts: seq<Attempt>, n: nat): Option<Failure>
    requires n <= |attempts|
  {
    if n == 0 then None else Some(FailureOf(PathError(attempts[n - 1])))
  }

  /** How far the task has followed `attempts`. */
  ghost predicate Followed(pc: Pc, attempts: seq<Attempt>)
    requires PcOk(pc)
  {
    Held(pc).Some? && |attempts| == |pc.invoice.paths| ==>
      var paths := pc.invoice.paths;
      match pc
      case Paying(_, n, e) => NoneStops(paths, attempts, n) && e == ErrorAfter(attempts, n)
      case Sent(_, n, _) => NoneStops(paths, attempts, n) && !Aborts(paths[n], attempts[n]) && Dispatches(attempts[n])
      case Tracking(_, n, _) => NoneStops(paths, attempts, n) && !Aborts(paths[n], attempts[n]) && Dispatches(attempts[n])
      case Paid(_, n) => NoneStops(paths, attempts, n) && !Aborts(paths[n], attempts[n]) && Works(attempts[n])
      case LookupFailed(_, n) => NoneStops(paths, attempts, n) && Aborts(paths[n], attempts[n])
      case Unpaid(_, f) =>
        NoneStops(paths, attempts, |paths|) &&
        f == if |paths| == 0 then PaymentFailure else FailureOf(PathError(attempts[|paths| - 1]))
      case _ => true
  }

  lemma FollowedAct(task: Task, entry: Option<PaymentInfo>, step: Step, attempts: seq<Attempt>)
    requires PcOk(task.pc) && Followed(task.pc, attempts) && Answers(task.pc, step, attempts)
    requires PcOk(Act(task, entry, step).pc)
    ensures Followed(Act(task, entry, step).pc, attempts)
  {
  }

  ghost predicate Follows(s: System, t: TaskId, attempts: seq<Attempt>) {
    t in s.tasks ==> PcOk(s.tasks[t].pc) && Followed(s.tasks[t].pc, attempts)
  }

  lemma FollowsApply(s: System, step: Step, t: TaskId, attempts: seq<Attempt>)
    requires Follows(s, t, attempts)
    requires Actor(step) == Some(t) && t in s.tasks ==> Answers(s.tasks[t].pc, step, attempts)
    ensures Follows(Apply(s, step), t, attempts)
  {
    if Acts(s, step) && step.task == t {
      var entry := Entry(s.active, s.tasks[t].id);
      PcOkAct(s.tasks[t], entry, step);
      FollowedAct(s.tasks[t], entry, step, attempts);
    }
  }

  lemma {:induction false} FollowsRun(steps: seq<Step>, t: TaskId, attempts: seq<Attempt>)
    requires AnswersLike(steps, t, attempts)
    ensures Follows(Run(steps), t, attempts)
  {
    if steps == [] {
    } else {
      FollowsRun(steps[..|steps| - 1], t, attempts);
      FollowsApply(Run(steps[..|steps| - 1]), steps[|steps| - 1], t, attempts);
    }
  }

  /** The task has returned from pay_invoice with what `r` stands for. */
  predicate ReturnedAs(pc: Pc, r: Result<nat, OfferError>) {
    if r.Ok? then pc.Paid?
    else if r.error.GetChannelInfo? then pc.LookupFailed?
    else pc.Unpaid? && pc.failure == FailureOf(r.error)
  }

  lemma FollowedToTheEnd(pc: Pc, attempts: seq<Attempt>, r: Result<nat, OfferError>)
    requires PcOk(pc) && Followed(pc, attempts) && (pc.Paid? || pc.LookupFailed? || pc.Unpaid?)
    requires |attempts| == |pc.invoice.paths|
    requires IsOutcome(pc.invoice.paths, attempts, FirstStop(pc.invoice.paths, attempts), r)
    ensures ReturnedAs(pc, r) && Tried(pc) == PathsTried(pc.invoice.paths, attempts)
    ensures pc.LookupFailed? <==> GivesUp(pc.invoice.paths, attempts)
  {
    StopsFirstAt(pc.invoice.paths, attempts, if pc.Unpaid? then |pc.invoice.paths| else pc.path);
  }

  /**
   Whatever else goes on meanwhile, a task that has returned from pay_invoice has the result,
   and has queried the paths, of the loop run on its own; and unless an invoice error struck
   its entry, its id is in the map exactly if the loop leaves it there.
   */
  lemma RefinesPayInvoice(steps: seq<Step>, t: TaskId, attempts: seq<Attempt>, r: Result<nat, OfferError>)
    requires FreshIds(steps) && t in Run(steps).tasks && AnswersLike(steps, t, attempts)
    requires var pc := Run(steps).tasks[t].pc; pc.Paid? || pc.LookupFailed? || pc.Unpaid?
    requires var paths := Run(steps).tasks[t].pc.invoice.paths;
      |attempts| == |paths| && IsOutcome(paths, attempts, FirstStop(paths, attempts), r)
    ensures var s, task := Run(steps), Run(steps).tasks[t];
      && ReturnedAs(task.pc, r)
      && InOrder(PathsOf(s.queries, t), PathsTried(task.pc.invoice.paths, attempts))
      && (!task.kind.PayInvoice? && !Abandoned(steps, task.id) ==>
            (task.id in s.active <==> GivesUp(task.pc.invoice.paths, attempts)))
  {
    FollowsRun(steps, t, attempts);
    FollowedToTheEnd(Run(steps).tasks[t].pc, attempts, r);
    PathsInOrder(steps, t);
    if Run(steps).tasks[t].pc.LookupFailed? {
      if !Run(steps).tasks[t].kind.PayInvoice? {
        assert steps[..|steps|] == steps;
        LookupFailureLeaks(steps, |steps|, t);
      }
    } else {
      ReturnReleases(steps, t);
    }
  }
}
