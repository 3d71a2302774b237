/**
 What the tasks of src/offers/handler.rs were asked for and what they ask for: every task goes back
 to the call that began it, every payment has its invoice requested exactly once, and every
 amount is the one validated for that call.
 */
module PaymentRequests {
  import opened Common
  import opened Amounts
  import opened Payments
  import opened PaymentRuns

  // ---- The call a task goes back to ----

  /** A call of pay_offer, get_invoice or pay_invoice, for task `t`, whose amount passes validation. */
  predicate Calls(step: Step, t: TaskId) {
    (step.Begin? || step.BeginPayInvoice?) && step.task == t && ValidateAmount(step.offer, step.pay).Ok?
  }

  /** The task does what that call asks, and no more than that. */
  predicate Serves(task: Task, step: Step) {
    && (step.Begin? || step.BeginPayInvoice?)
    && task.id == step.id && ValidateAmount(step.offer, step.pay) == Ok(task.msats)
    && (step.BeginPayInvoice? ==> task.kind == PayInvoice && Held(task.pc) == Some(step.paid))
    && (step.Begin? ==> task.kind == if step.kind.PayOffer? then PayOffer else GetInvoice)
    && (task.pc == Failed(BuildFailure) <==> step.Begin? && !step.built)
  }

  lemma ServesAct(task: Task, entry: Option<PaymentInfo>, step: Step, call: Step)
    requires Serves(task, call) && PcOk(task.pc)
    ensures Serves(task.(pc := Act(task, entry, step).pc), call)
  {
  }

  lemma ServesApply(s: System, step: Step, t: TaskId, call: Step)
    requires t in s.tasks && Serves(s.tasks[t], call) && PcOk(s.tasks[t].pc)
    ensures t in Apply(s, step).tasks && Serves(Apply(s, step).tasks[t], call)
  {
    if Acts(s, step) && step.task == t {
      ServesAct(s.tasks[t], Entry(s.active, s.tasks[t].id), step, call);
    }
  }

  lemma TaskStays(s: System, step: Step, t: TaskId)
    ensures t in s.tasks ==> t in Apply(s, step).tasks
    ensures t in s.tasks && !(Acts(s, step) && step.task == t) ==> Apply(s, step).tasks[t] == s.tasks[t]
  {
  }

  lemma EntersOnlyByCall(s: System, step: Step, t: TaskId)
    requires t !in s.tasks
    ensures t in Apply(s, step).tasks <==> Calls(step, t)
    ensures t in Apply(s, step).tasks ==> Serves(Apply(s, step).tasks[t], step) && !Apply(s, step).tasks[t].pc.Refused?
  {
  }

  lemma {:induction false} NoTaskNoCall(steps: seq<Step>, t: TaskId)
    requires t !in Run(steps).tasks
    ensures forall i :: 0 <= i < |steps| ==> !Calls(steps[i], t)
  {
    if steps == [] {
    } else {
      var n := |steps| - 1;
      TaskStays(Run(steps[..n]), steps[n], t);
      NoTaskNoCall(steps[..n], t);
      EntersOnlyByCall(Run(steps[..n]), steps[n], t);
    }
  }

  /** Every task goes back to the first call for it in the run, and serves that call. */
  lemma {:induction false} BegunBy(steps: seq<Step>, t: TaskId) returns (i: nat)
    requires t in Run(steps).tasks
    ensures i < |steps| && Calls(steps[i], t) && Serves(Run(steps).tasks[t], steps[i])
    ensures forall j :: 0 <= j < i ==> !Calls(steps[j], t)
  {
    var n := |steps| - 1;
    var before := steps[..n];
    if t in Run(before).tasks {
      i := BegunBy(before, t);
      PathsInOrder(before, t);
      ServesApply(Run(before), steps[n], t, steps[i]);
    } else {
      i := n;
      EntersOnlyByCall(Run(before), steps[n], t);
      NoTaskNoCall(before, t);
    }
  }

  /** There is a task exactly for each call. */
  lemma TasksAreTheCalls(steps: seq<Step>, t: TaskId)
    ensures t in Run(steps).tasks <==> exists i :: 0 <= i < |steps| && Calls(steps[i], t)
  {
    if t in Run(steps).tasks {
      var i := BegunBy(steps, t);
    } else {
      NoTaskNoCall(steps, t);
    }
  }

  // ---- Why a task returned ----

  /** The step by which a task returns the way `pc` says; nothing but a failed build needs none. */
  function Cause(pc: Pc, t: TaskId): Option<Step> {
    match pc
    case Refused => Some(Insert(t))
    case Failed(failure) =>
      if failure.SendRequestFailure? then Some(RequestFails(t))
      else if failure.InvoiceTimeout? then Some(TimeOut(t))
      else None
    case LookupFailed(_, _) => Some(LookupFails(t))
    case Unpaid(_, _) => Some(PathsExhausted(t))
    case Delivered(_) => Some(ServerReleases(t))
    case Paid(_, _) => Some(TrackSucceeds(t))
    case _ => None
  }

  predicate HasCause(steps: seq<Step>, t: TaskId) {
    t in Run(steps).tasks && Returned(Run(steps).tasks[t].pc) && Run(steps).tasks[t].pc != Failed(BuildFailure)
  }

  lemma CauseAct(task: Task, entry: Option<PaymentInfo>, step: Step)
    requires Actor(step).Some? && !Returned(task.pc) && Returned(Act(task, entry, step).pc)
    ensures Cause(Act(task, entry, step).pc, Actor(step).value) == Some(step)
  {
  }

  lemma CauseApply(s: System, step: Step, t: TaskId)
    requires t in s.tasks && !Returned(s.tasks[t].pc)
    ensures var pc := Apply(s, step).tasks[t].pc; t in Apply(s, step).tasks && (Returned(pc) ==> Cause(pc, t) == Some(step))
  {
    if Acts(s, step) && step.task == t && Returned(EffectOf(s, step).pc) {
      CauseAct(s.tasks[t], Entry(s.active, s.tasks[t].id), step);
    }
  }

  /** A task says truly why it returned: it did so by the step its result names. */
  lemma {:induction false} ReturnsBecause(steps: seq<Step>, t: TaskId) returns (i: nat)
    requires HasCause(steps, t)
    ensures i < |steps| && Cause(Run(steps).tasks[t].pc, t) == Some(steps[i])
    ensures t in Run(steps[..i]).tasks && !Returned(Run(steps[..i]).tasks[t].pc)
  {
    var n := |steps| - 1;
    var before := steps[..n];
    if t !in Run(before).tasks {
      EntersOnlyByCall(Run(before), steps[n], t);
      assert false;
    } else if Returned(Run(before).tasks[t].pc) {
      ReturnedApply(Run(before), steps[n], t);
      i := ReturnsBecause(before, t);
      assert steps[..i] == before[..i];
    } else {
      i := n;
      CauseApply(Run(before), steps[n], t);
    }
  }

  /** A task is refused exactly if it came to enter an id that was in the map already. */
  predicate FindsEntry(steps: seq<Step>, i: nat, t: TaskId) {
    && i < |steps| && steps[i] == Insert(t)
    && var s := Run(steps[..i]);
       t in s.tasks && s.tasks[t].pc.Drawn? && s.tasks[t].id in s.active
  }

  lemma RefusedAct(task: Task, entry: Option<PaymentInfo>, step: Step)
    ensures Act(task, entry, step).pc.Refused? <==>
            task.pc.Refused? || (step.Insert? && task.pc.Drawn? && entry.Some?)
  {
  }

  lemma RefusedNext(s: System, step: Step, t: TaskId)
    ensures var s' := Apply(s, step);
      t in s'.tasks && s'.tasks[t].pc.Refused? <==>
        t in s.tasks && (s.tasks[t].pc.Refused? || (step == Insert(t) && s.tasks[t].pc.Drawn? && s.tasks[t].id in s.active))
  {
    if Acts(s, step) && step.task == t {
      RefusedAct(s.tasks[t], Entry(s.active, s.tasks[t].id), step);
    } else if t in s.tasks {
      TaskStays(s, step, t);
    } else {
      EntersOnlyByCall(s, step, t);
    }
  }

  lemma FindsEntryBefore(steps: seq<Step>, i: nat, t: TaskId)
    requires i < |steps| - 1
    ensures FindsEntry(steps[..|steps| - 1], i, t) == FindsEntry(steps, i, t)
  {
    assert steps[..|steps| - 1][..i] == steps[..i];
  }

  lemma {:induction false} RefusedIff(steps: seq<Step>, t: TaskId)
    ensures t in Run(steps).tasks && Run(steps).tasks[t].pc.Refused? <==> exists i: nat :: FindsEntry(steps, i, t)
  {
    if steps == [] {
    } else {
      var n := |steps| - 1;
      RefusedIff(steps[..n], t);
      forall i: nat | i < n ensures FindsEntry(steps[..n], i, t) == FindsEntry(steps, i, t) {
        FindsEntryBefore(steps, i, t);
      }
      RefusedNext(Run(steps[..n]), steps[n], t);
      assert FindsEntry(steps, n, t) <==>
        (steps[n] == Insert(t) && t in Run(steps[..n]).tasks && Run(steps[..n]).tasks[t].pc.Drawn? &&
         Run(steps[..n]).tasks[t].id in Run(steps[..n]).active);
    }
  }

  // ---- Requests ----

  /** The invoice requests for `id`, in the order they were pushed. */
  function RequestsFor(pushed: seq<Message>, id: PaymentId): seq<Message> {
    if pushed == [] then [] else
      var m := pushed[|pushed| - 1];
      RequestsFor(pushed[..|pushed| - 1], id) + if m.InvoiceRequest? && m.id == id then [m] else []
  }

  lemma RequestsForNext(pushed: seq<Message>, m: Message, all: seq<Message>, id: PaymentId)
    requires all == pushed + [m]
    ensures RequestsFor(all, id) == RequestsFor(pushed, id) + if m.InvoiceRequest? && m.id == id then [m] else []
  {
    assert all[..|all| - 1] == pushed;
  }

  /** The task has got as far as waiting for an invoice, or further. */
  predicate HasAsked(task: Task) {
    && !task.kind.PayInvoice?
    && !task.pc.Drawn? && !task.pc.Requesting? && !task.pc.Refused?
    && (task.pc.Failed? ==> task.pc.failure.InvoiceTimeout?)
  }

  function Requested(s: System, id: PaymentId): seq<Message> {
    if Known(s, id) && HasAsked(s.tasks[s.drawn[id]])
    then [InvoiceRequest(id, s.tasks[s.drawn[id]].msats)] else []
  }

  /** A step asks for an invoice exactly when it takes its task so far. */
  predicate AsksOnce(task: Task, e: Effect) {
    if HasAsked(task.(pc := e.pc)) && !HasAsked(task)
    then e.push == Some(InvoiceRequest(task.id, task.msats))
    else e.push == None && (HasAsked(task) ==> HasAsked(task.(pc := e.pc)))
  }

  lemma AsksAct(task: Task, entry: Option<PaymentInfo>, step: Step)
    requires task.kind.PayInvoice? ==> Held(task.pc).Some?
    ensures AsksOnce(task, Act(task, entry, step))
  {
  }

  lemma RequestedBy(s: System, t: TaskId, e: Effect, id: PaymentId)
    requires Inv(s) && t in s.tasks
    ensures var task := s.tasks[t].(pc := e.pc);
      Requested(Perform(s, t, e), id) ==
        if task.id != id then Requested(s, id)
        else if HasAsked(task) then [InvoiceRequest(id, task.msats)] else []
  {
    assert Known(s, id) ==> (s.drawn[id] == t <==> s.tasks[t].id == id);
  }

  lemma RequestedPerform(s: System, t: TaskId, e: Effect, id: PaymentId)
    requires Inv(s) && t in s.tasks && AsksOnce(s.tasks[t], e) && RequestsFor(s.pushed, id) == Requested(s, id)
    ensures var s' := Perform(s, t, e); RequestsFor(s'.pushed, id) == Requested(s', id)
  {
    var s' := Perform(s, t, e);
    RequestedBy(s, t, e, id);
    assert s.tasks[t].id == id ==> Known(s, id) && s.drawn[id] == t;
    if e.push.Some? {
      RequestsForNext(s.pushed, e.push.value, s'.pushed, id);
    } else {
      assert s'.pushed == s.pushed;
    }
  }

  lemma RequestedEnter(s: System, t: TaskId, task: Task, id: PaymentId)
    requires Inv(s) && t !in s.tasks && task.id !in s.drawn && !HasAsked(task)
    ensures Requested(Enter(s, t, task), id) == Requested(s, id)
  {
    assert Known(s, id) ==> task.id != id && s.drawn[id] != t;
  }

  lemma RequestedMessage(s: System, step: Step, id: PaymentId)
    requires RequestsFor(s.pushed, id) == Requested(s, id)
    ensures var s' := MessageStep(s, step); RequestsFor(s'.pushed, id) == Requested(s', id)
  {
    var s' := MessageStep(s, step);
    assert Requested(s', id) == Requested(s, id);
    if step.Respond? {
      RequestsForNext(s.pushed, InvoiceResponse(step.contents), s'.pushed, id);
    } else {
      assert s'.pushed == s.pushed;
    }
  }

  lemma RequestedApply(s: System, step: Step, id: PaymentId)
    requires Inv(s) && (Starts(s, step) ==> step.id !in s.drawn) && RequestsFor(s.pushed, id) == Requested(s, id)
    ensures var s' := Apply(s, step); RequestsFor(s'.pushed, id) == Requested(s', id)
  {
    if Acts(s, step) {
      var task := s.tasks[step.task];
      AsksAct(task, Entry(s.active, task.id), step);
      RequestedPerform(s, step.task, EffectOf(s, step), id);
    } else if Starts(s, step) {
      RequestedEnter(s, step.task, NewTask(step), id);
    } else if Actor(step).None? {
      RequestedMessage(s, step, id);
    }
  }

  /**
   An invoice is requested exactly once for every payment, when its task goes to wait for it, and
   never for an id no such task has: at every point the requests pushed for an id are that one.
   */
  lemma {:induction false} RequestedOnce(steps: seq<Step>, id: PaymentId)
    requires FreshIds(steps)
    ensures RequestsFor(Run(steps).pushed, id) == Requested(Run(steps), id)
  {
    if steps == [] {
    } else {
      RequestedOnce(steps[..|steps| - 1], id);
      InvRun(steps[..|steps| - 1]);
      RequestedApply(Run(steps[..|steps| - 1]), steps[|steps| - 1], id);
    }
  }

  // ---- Responses ----

  function ResponsesIn(pushed: seq<Message>): seq<nat> {
    if pushed == [] then [] else
      var m := pushed[|pushed| - 1];
      ResponsesIn(pushed[..|pushed| - 1]) + if m.InvoiceResponse? then [m.contents] else []
  }

  function Responded(steps: seq<Step>): seq<nat> {
    if steps == [] then [] else
      var step := steps[|steps| - 1];
      Responded(steps[..|steps| - 1]) + if step.Respond? then [step.contents] else []
  }

  lemma PushedByAct(task: Task, entry: Option<PaymentInfo>, step: Step)
    ensures var push := Act(task, entry, step).push;
      push.Some? ==> push.value == InvoiceRequest(task.id, task.msats)
  {
  }

  lemma ResponsesNext(s: System, step: Step)
    ensures ResponsesIn(Apply(s, step).pushed) == ResponsesIn(s.pushed) + if step.Respond? then [step.contents] else []
  {
    OutboxStep(s, step);
    var s' := Apply(s, step);
    if Pushes(s, step) == [] || step.ReleaseMessages? {
      assert s'.pushed == s.pushed;
    } else {
      assert s'.pushed[..|s'.pushed| - 1] == s.pushed;
      if Acts(s, step) {
        PushedByAct(s.tasks[step.task], Entry(s.active, s.tasks[step.task].id), step);
      }
    }
  }

  /** The responses pushed are those made, each once and in order. */
  lemma {:induction false} RespondedOnce(steps: seq<Step>)
    ensures ResponsesIn(Run(steps).pushed) == Responded(steps)
  {
    if steps == [] {
    } else {
      RespondedOnce(steps[..|steps| - 1]);
      ResponsesNext(Run(steps[..|steps| - 1]), steps[|steps| - 1]);
    }
  }

  // ---- Amounts ----

  lemma {:induction false} RequestAmongRequests(pushed: seq<Message>, j: nat)
    requires j < |pushed| && pushed[j].InvoiceRequest?
    ensures pushed[j] in RequestsFor(pushed, pushed[j].id)
  {
    if j < |pushed| - 1 {
      RequestAmongRequests(pushed[..|pushed| - 1], j);
    }
  }

  /**
   Every invoice request, answered or not, goes back to a call of pay_offer or get_invoice and asks
   for the amount validated for that call: what the caller said, or what the offer asks; never
   below that, and positive if the offer states an amount.
   */
  lemma RequestAmount(steps: seq<Step>, j: nat) returns (i: nat)
    requires FreshIds(steps) && j < |Run(steps).pushed| && Run(steps).pushed[j].InvoiceRequest?
    ensures i < |steps| && steps[i].Begin? && steps[i].id == Run(steps).pushed[j].id
    ensures var m := Run(steps).pushed[j];
      && ValidateAmount(steps[i].offer, steps[i].pay) == Ok(m.msats)
      && Minimum(steps[i].offer) <= m.msats && (steps[i].offer.Some? ==> 0 < m.msats)
  {
    var s, m := Run(steps), Run(steps).pushed[j];
    RequestAmongRequests(s.pushed, j);
    RequestedOnce(steps, m.id);
    i := BegunBy(steps, s.drawn[m.id]);
  }

  lemma {:induction false} QueriedByTask(queries: seq<RouteQuery>, k: nat)
    requires k < |queries|
    ensures PathsOf(queries, queries[k].task) != []
  {
    if k < |queries| - 1 {
      QueriedByTask(queries[..|queries| - 1], k);
    }
  }

  /**
   Every route query goes back to a call of pay_offer or pay_invoice. It hands LND the amount
   validated for that call if that is below 2^63, and a negative one otherwise, and is for
   a path of the invoice the task has in hand; the caller's own, in the case of pay_invoice.
   */
  lemma QueryAmount(steps: seq<Step>, k: nat) returns (i: nat)
    requires FreshIds(steps) && k < |Run(steps).queries|
    ensures i < |steps| && Calls(steps[i], Run(steps).queries[k].task)
    ensures var q, msats := Run(steps).queries[k], ValidateAmount(steps[i].offer, steps[i].pay).value;
      && (q.amtMsat == msats <==> msats < 0x8000_0000_0000_0000)
      && (q.amtMsat < 0 <==> msats >= 0x8000_0000_0000_0000)
      && (steps[i].Begin? ==> steps[i].kind.PayOffer?)
      && (steps[i].BeginPayInvoice? ==> q.paymentHash == steps[i].paid.paymentHash && q.path < |steps[i].paid.paths|)
  {
    var s, q := Run(steps), Run(steps).queries[k];
    QueriesRun(steps);
    assert QueryOk(s, q);
    i := BegunBy(steps, q.task);
    PathsInOrder(steps, q.task);
    InvRun(steps);
    QueriedByTask(s.queries, k);
  }

  /** So the request and the route queries of a payment are for the same amount, below 2^63. */
  lemma RequestAndQueryAgree(steps: seq<Step>, j: nat, k: nat)
    requires FreshIds(steps) && j < |Run(steps).pushed| && k < |Run(steps).queries|
    requires var s := Run(steps);
      s.pushed[j].InvoiceRequest? && Known(s, s.pushed[j].id) && s.drawn[s.pushed[j].id] == s.queries[k].task
    ensures var m, q := Run(steps).pushed[j], Run(steps).queries[k];
      q.amtMsat == m.msats <==> m.msats < 0x8000_0000_0000_0000
  {
    var s := Run(steps);
    QueriesRun(steps);
    assert QueryOk(s, s.queries[k]);
    RequestAmongRequests(s.pushed, j);
    RequestedOnce(steps, s.pushed[j].id);
  }
}
