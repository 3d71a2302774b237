/** What src/offers/handler.rs keeps under every interleaving of its tasks and messages. */
module PaymentRuns {
  import opened Common
  import opened Amounts
  import opened Payments

  /** The invoice a task has in hand. */
  function Held(pc: Pc): Option<Invoice> {
    if pc.Got? || pc.HandedOver? || pc.Paying? || pc.Sent? || pc.Tracking? || pc.LookupFailed? ||
       pc.Unpaid? || pc.Delivered? || pc.Paid?
    then Some(pc.invoice) else None
  }

  predicate InPayInvoice(pc: Pc) {
    pc.Paying? || pc.Sent? || pc.Tracking? || pc.LookupFailed?
  }

  /** In pay_invoice, with no path dispatched so far. */
  predicate Undispatched(pc: Pc) {
    (pc.Paying? && pc.next == 0) || (pc.Sent? && pc.path == 0)
  }

  /**
   The task has entered its id in the map and has not taken it out again: it is in flight, or
   it left by the one return that does not release the id.
   */
  predicate Holding(task: Task) {
    && !task.kind.PayInvoice?
    && (task.pc.Requesting? || task.pc.Waiting? || task.pc.Got? || task.pc.HandedOver? || InPayInvoice(task.pc))
  }

  predicate PcOk(pc: Pc) {
    && (pc.Paying? ==> pc.next <= |pc.invoice.paths|)
    && (pc.Sent? || pc.Tracking? || pc.Paid? ==> pc.path < |pc.invoice.paths|)
    && (pc.LookupFailed? ==> pc.path < |pc.invoice.paths| && pc.invoice.paths[pc.path].byScid)
  }

  /** What holds of a task and of the entry, if any, for its id; `born` if it ever had one. */
  predicate TaskOk(task: Task, entry: Option<PaymentInfo>, born: bool) {
    && ValidateAmount(task.offer, task.pay) == Ok(task.msats)
    && !task.pc.Refused? && PcOk(task.pc)
    && (task.kind.GetInvoice? ==> !InPayInvoice(task.pc) && !task.pc.Unpaid? && !task.pc.Paid?)
    && (task.pc.Drawn? ==> !born && !task.kind.PayInvoice?)
    && (task.kind.PayInvoice? ==> !born && Held(task.pc).Some?)
    && (entry.Some? ==>
          && born && Holding(task)
          && (entry.value.state == InvoiceRequestCreated <==> entry.value.invoice.None?)
          && (entry.value.state == PaymentDispatched ==> InPayInvoice(task.pc) && !Undispatched(task.pc))
          && (task.pc.Tracking? ==> entry.value.state == PaymentDispatched)
          && (Held(task.pc).Some? ==> entry.value.invoice == Held(task.pc)))
  }

  /** The task that drew `id`, if its id it still is. */
  predicate Known(s: System, id: PaymentId) {
    id in s.drawn && s.drawn[id] in s.tasks && s.tasks[s.drawn[id]].id == id
  }

  ghost predicate Inv(s: System) {
    && (forall t :: t in s.tasks ==>
          var id := s.tasks[t].id;
          id in s.drawn && s.drawn[id] == t && TaskOk(s.tasks[t], Entry(s.active, id), id in s.born))
    && (forall id :: id in s.active ==> id in s.born)
    && (forall id :: id in s.born ==> Known(s, id))
  }

  lemma PcOkAct(task: Task, entry: Option<PaymentInfo>, step: Step)
    requires PcOk(task.pc)
    ensures PcOk(Act(task, entry, step).pc)
  {
  }

  lemma TaskOkPathStep(task: Task, entry: Option<PaymentInfo>, born: bool, step: Step)
    requires TaskOk(task, entry, born) && task.pc.Paying?
    ensures var e := PathStep(task.pc.invoice, task.pc.next, task.pc.lastError, entry, step);
      TaskOk(task.(pc := e.pc), e.entry, born || e.entry.Some?)
  {
  }

  lemma TaskOkAct(task: Task, entry: Option<PaymentInfo>, born: bool, step: Step)
    requires TaskOk(task, entry, born)
    ensures var e := Act(task, entry, step);
      TaskOk(task.(pc := e.pc), e.entry, born || e.entry.Some?)
  {
    if task.pc.Paying? {
      TaskOkPathStep(task, entry, born, step);
    } else {
      PcOkAct(task, entry, step);
    }
  }

  lemma NewTaskOk(step: Step)
    requires (step.Begin? || step.BeginPayInvoice?) && ValidateAmount(step.offer, step.pay).Ok?
    ensures TaskOk(NewTask(step), None, false)
  {
  }

  lemma InvEnter(s: System, t: TaskId, task: Task)
    requires Inv(s) && t !in s.tasks && task.id !in s.drawn && TaskOk(task, None, false)
    ensures Inv(Enter(s, t, task))
  {
    assert task.id !in s.born && task.id !in s.active;
  }

  lemma InvPerform(s: System, t: TaskId, e: Effect)
    requires Inv(s) && t in s.tasks
    requires TaskOk(s.tasks[t].(pc := e.pc), e.entry, s.tasks[t].id in s.born || e.entry.Some?)
    ensures Inv(Perform(s, t, e))
  {
  }

  lemma InvMessageStep(s: System, step: Step)
    requires Inv(s)
    ensures Inv(MessageStep(s, step))
  {
  }

  lemma InvApply(s: System, step: Step)
    requires Inv(s) && (Starts(s, step) ==> step.id !in s.drawn)
    ensures Inv(Apply(s, step))
  {
    if Starts(s, step) {
      NewTaskOk(step);
      InvEnter(s, step.task, NewTask(step));
    } else if Actor(step).None? {
      InvMessageStep(s, step);
    } else if Acts(s, step) {
      var task := s.tasks[step.task];
      TaskOkAct(task, Entry(s.active, task.id), task.id in s.born, step);
      InvPerform(s, step.task, EffectOf(s, step));
    }
  }

  lemma {:induction false} InvRun(steps: seq<Step>)
    requires FreshIds(steps)
    ensures Inv(Run(steps))
  {
    if steps == [] {
    } else {
      InvRun(steps[..|steps| - 1]);
      InvApply(Run(steps[..|steps| - 1]), steps[|steps| - 1]);
    }
  }

  // ---- Lifecycle of an entry ----

  function Rank(state: PaymentState): nat {
    match state
    case InvoiceRequestCreated => 0
    case InvoiceReceived => 1
    case PaymentDispatched => 2
  }

  /** An id once in the map is in it without interruption; its state advances, its invoice is written once. */
  predicate Forward(s: System, s': System, id: PaymentId) {
    id in s.born ==>
      && id in s'.born
      && (id in s'.active ==>
            && id in s.active
            && Rank(s.active[id].state) <= Rank(s'.active[id].state)
            && (s.active[id].invoice.Some? ==> s'.active[id].invoice == s.active[id].invoice))
  }

  /** What a step of its owner may do to an entry. */
  predicate Advances(entry: Option<PaymentInfo>, entry': Option<PaymentInfo>) {
    entry'.Some? ==>
      && entry.Some?
      && Rank(entry.value.state) <= Rank(entry'.value.state)
      && entry'.value.invoice == entry.value.invoice
  }

  lemma ForwardAct(task: Task, entry: Option<PaymentInfo>, step: Step)
    requires TaskOk(task, entry, true)
    ensures Advances(entry, Act(task, entry, step).entry)
  {
  }

  lemma ForwardPerform(s: System, t: TaskId, e: Effect, id: PaymentId)
    requires t in s.tasks
    requires s.tasks[t].id in s.born ==> Advances(Entry(s.active, s.tasks[t].id), e.entry)
    ensures Forward(s, Perform(s, t, e), id)
  {
  }

  lemma ForwardMessage(s: System, step: Step, id: PaymentId)
    requires id in s.active ==> s.active[id].invoice.None? ==> s.active[id].state == InvoiceRequestCreated
    ensures Forward(s, MessageStep(s, step), id)
  {
  }

  lemma ForwardApply(s: System, step: Step, id: PaymentId)
    requires Inv(s)
    ensures Forward(s, Apply(s, step), id)
  {
    if Acts(s, step) {
      var task := s.tasks[step.task];
      if task.id in s.born {
        ForwardAct(task, Entry(s.active, task.id), step);
      }
      ForwardPerform(s, step.task, EffectOf(s, step), id);
    } else if Actor(step).None? {
      assert id in s.active ==> Known(s, id);
      ForwardMessage(s, step, id);
    }
  }

  /**
   From any point of a run on: an entry is in state InvoiceRequestCreated exactly while it has
   no invoice, its state only advances, its invoice never changes, and an id that has been
   taken out of the map never comes back.
   */
  lemma {:induction false} Lifecycle(steps: seq<Step>, m: nat, id: PaymentId)
    requires FreshIds(steps) && m <= |steps|
    ensures Forward(Run(steps[..m]), Run(steps), id)
    ensures id in Run(steps).active ==>
              var entry := Run(steps).active[id];
              entry.state == InvoiceRequestCreated <==> entry.invoice.None?
  {
    InvRun(steps);
    assert id in Run(steps).active ==> Known(Run(steps), id);
    if m == |steps| {
      assert steps[..m] == steps;
    } else {
      var before := steps[..|steps| - 1];
      assert before[..m] == steps[..m];
      Lifecycle(before, m, id);
      InvRun(before);
      ForwardApply(Run(before), steps[|steps| - 1], id);
    }
  }

  /** The state of a live entry tells how far its owner has come. */
  lemma StateTellsProgress(steps: seq<Step>, t: TaskId)
    requires FreshIds(steps) && t in Run(steps).tasks && Run(steps).tasks[t].id in Run(steps).active
    ensures var pc, state := Run(steps).tasks[t].pc, Run(steps).active[Run(steps).tasks[t].id].state;
      && (Held(pc).Some? ==> state != InvoiceRequestCreated)
      && (pc.Got? || pc.HandedOver? || Undispatched(pc) ==> state == InvoiceReceived)
      && (pc.Tracking? ==> state == PaymentDispatched)
      && (state == PaymentDispatched ==> InPayInvoice(pc) && !Undispatched(pc))
  {
    InvRun(steps);
  }

  // ---- Who owns an entry ----

  predicate Owns(s: System, t: TaskId, id: PaymentId) {
    t in s.tasks && s.tasks[t].id == id && Holding(s.tasks[t])
  }

  /** A verified invoice error has struck the entry for `id`. */
  predicate Abandoned(steps: seq<Step>, id: PaymentId) {
    steps != [] &&
    var before, step := steps[..|steps| - 1], steps[|steps| - 1];
    Abandoned(before, id) || (step == InvoiceErrorArrives(id, true) && id in Run(before).active)
  }

  /** The entry is in the map exactly while its owner holds it and no invoice error has struck it. */
  predicate HeldExactly(s: System, id: PaymentId, abandoned: bool) {
    && (abandoned ==> id in s.born)
    && (id in s.active <==> (Known(s, id) && Holding(s.tasks[s.drawn[id]]) && !abandoned))
  }

  /** An effect on the entry of a task that takes it in, keeps it, or lets it go with the task. */
  predicate LetsGoTogether(task: Task, entry: Option<PaymentInfo>, born: bool, e: Effect) {
    if Holding(task.(pc := e.pc))
    then (Holding(task) && (e.entry.Some? <==> entry.Some?)) || (!born && e.entry.Some?)
    else e.entry.None?
  }

  lemma HeldAct(task: Task, entry: Option<PaymentInfo>, born: bool, step: Step)
    requires TaskOk(task, entry, born)
    ensures LetsGoTogether(task, entry, born, Act(task, entry, step))
  {
  }

  lemma HeldExactlyPerform(s: System, t: TaskId, e: Effect, id: PaymentId, abandoned: bool)
    requires Inv(s) && t in s.tasks && HeldExactly(s, id, abandoned)
    requires LetsGoTogether(s.tasks[t], Entry(s.active, s.tasks[t].id), s.tasks[t].id in s.born, e)
    ensures HeldExactly(Perform(s, t, e), id, abandoned)
  {
  }

  lemma HeldExactlyMessage(s: System, step: Step, id: PaymentId, abandoned: bool)
    requires HeldExactly(s, id, abandoned) && (id in s.active ==> id in s.born)
    ensures HeldExactly(MessageStep(s, step), id,
              abandoned || (step == InvoiceErrorArrives(id, true) && id in s.active))
  {
  }

  lemma HeldExactlyEnter(s: System, t: TaskId, task: Task, id: PaymentId, abandoned: bool)
    requires Inv(s) && t !in s.tasks && task.id !in s.drawn && HeldExactly(s, id, abandoned)
    requires !Holding(task)
    ensures HeldExactly(Enter(s, t, task), id, abandoned)
  {
    assert task.id != id || !Known(s, id);
  }

  lemma HeldExactlyApply(s: System, step: Step, id: PaymentId, abandoned: bool)
    requires Inv(s) && (Starts(s, step) ==> step.id !in s.drawn)
    requires HeldExactly(s, id, abandoned)
    ensures HeldExactly(Apply(s, step), id, abandoned || (step == InvoiceErrorArrives(id, true) && id in s.active))
  {
    if Acts(s, step) {
      var task := s.tasks[step.task];
      HeldAct(task, Entry(s.active, task.id), task.id in s.born, step);
      HeldExactlyPerform(s, step.task, EffectOf(s, step), id, abandoned);
    } else if Actor(step).None? {
      HeldExactlyMessage(s, step, id, abandoned);
    } else if Starts(s, step) {
      HeldExactlyEnter(s, step.task, NewTask(step), id, abandoned);
    }
  }

  lemma {:induction false} HeldExactlyRun(steps: seq<Step>, id: PaymentId)
    requires FreshIds(steps)
    ensures HeldExactly(Run(steps), id, Abandoned(steps, id))
  {
    if steps == [] {
    } else {
      var before := steps[..|steps| - 1];
      HeldExactlyRun(before, id);
      InvRun(before);
      HeldExactlyApply(Run(before), steps[|steps| - 1], id, Abandoned(before, id));
    }
  }

  /**
   No leaked payments, exactly: an id is in the map if and only if some task holds it, that is
   the task is in flight or left by the failed scid lookup, and no verified invoice error has
   struck it. There is never more than one such task, and AlreadyProcessing never happens.
   */
  lemma NoLeakedPayments(steps: seq<Step>, id: PaymentId)
    requires FreshIds(steps)
    ensures id in Run(steps).active <==> (exists t :: Owns(Run(steps), t, id)) && !Abandoned(steps, id)
    ensures forall t, u :: Owns(Run(steps), t, id) && Owns(Run(steps), u, id) ==> t == u
    ensures forall t :: t in Run(steps).tasks ==> !Run(steps).tasks[t].pc.Refused?
  {
    InvRun(steps);
    HeldExactlyRun(steps, id);
    var s := Run(steps);
    if id in s.active {
      assert Owns(s, s.drawn[id], id);
    }
  }

  predicate Returned(pc: Pc) {
    pc.Refused? || pc.Failed? || pc.LookupFailed? || pc.Unpaid? || pc.Delivered? || pc.Paid?
  }

  /** Every return of a task but the failed scid lookup has released the id. */
  lemma ReturnReleases(steps: seq<Step>, t: TaskId)
    requires FreshIds(steps) && t in Run(steps).tasks
    requires var pc := Run(steps).tasks[t].pc; pc.Failed? || pc.Unpaid? || pc.Delivered? || pc.Paid?
    ensures Run(steps).tasks[t].id !in Run(steps).active
  {
    InvRun(steps);
  }

  lemma ReturnedAct(task: Task, entry: Option<PaymentInfo>, step: Step)
    ensures Returned(task.pc) ==> Act(task, entry, step) == Goto(task.pc, entry)
  {
  }

  lemma ReturnedApply(s: System, step: Step, t: TaskId)
    requires t in s.tasks && Returned(s.tasks[t].pc)
    ensures t in Apply(s, step).tasks && Apply(s, step).tasks[t] == s.tasks[t]
  {
    ReturnedAct(s.tasks[t], Entry(s.active, s.tasks[t].id), step);
  }

  lemma {:induction false} ReturnedStays(steps: seq<Step>, m: nat, t: TaskId)
    requires m <= |steps| && t in Run(steps[..m]).tasks && Returned(Run(steps[..m]).tasks[t].pc)
    ensures t in Run(steps).tasks && Run(steps).tasks[t] == Run(steps[..m]).tasks[t]
  {
    if m == |steps| {
      assert steps[..m] == steps;
    } else {
      var before := steps[..|steps| - 1];
      assert before[..m] == steps[..m];
      ReturnedStays(before, m, t);
      ReturnedApply(Run(before), steps[|steps| - 1], t);
    }
  }

  /**
   The exception: a task that returned because a scid lookup failed leaves its entry behind,
   and nothing but a verified invoice error ever takes it out.
   */
  lemma LookupFailureLeaks(steps: seq<Step>, m: nat, t: TaskId)
    requires FreshIds(steps) && m <= |steps| && t in Run(steps[..m]).tasks
    requires Run(steps[..m]).tasks[t].pc.LookupFailed? && !Run(steps[..m]).tasks[t].kind.PayInvoice?
    ensures Run(steps[..m]).tasks[t].id in Run(steps).active <==> !Abandoned(steps, Run(steps[..m]).tasks[t].id)
  {
    ReturnedStays(steps, m, t);
    var id := Run(steps[..m]).tasks[t].id;
    assert Owns(Run(steps), t, id);
    NoLeakedPayments(steps, id);
  }

  // ---- Provenance of invoices ----

  /** At step `i` an invoice that verifies for `id` is delivered while `id` is in the map. */
  predicate LiveArrival(steps: seq<Step>, i: nat, id: PaymentId) {
    i < |steps| && steps[i].InvoiceArrives? && steps[i].id == id && steps[i].verified &&
    id in Run(steps[..i]).active
  }

  function FirstInvoice(steps: seq<Step>, id: PaymentId): Option<Invoice> {
    if steps == [] then None else
      var before, step := steps[..|steps| - 1], steps[|steps| - 1];
      var earlier := FirstInvoice(before, id);
      if earlier.Some? then earlier
      else if step.InvoiceArrives? && step.id == id && step.verified && id in Run(before).active
      then Some(step.invoice)
      else None
  }

  lemma {:induction false} FirstInvoiceIsFirst(steps: seq<Step>, id: PaymentId) returns (i: nat)
    ensures FirstInvoice(steps, id).None? ==> forall j: nat :: !LiveArrival(steps, j, id)
    ensures FirstInvoice(steps, id).Some? ==>
      LiveArrival(steps, i, id) && FirstInvoice(steps, id) == Some(steps[i].invoice) &&
      forall j: nat :: j < i ==> !LiveArrival(steps, j, id)
  {
    i := 0;
    if steps == [] {
    } else {
      var n := |steps| - 1;
      var before := steps[..n];
      i := FirstInvoiceIsFirst(before, id);
      forall j: nat | j < n ensures LiveArrival(steps, j, id) == LiveArrival(before, j, id) {
        assert steps[..j] == before[..j];
      }
      if FirstInvoice(before, id).None? {
        i := n;
      }
    }
  }

  /** What the entry and its owner have to show for the first invoice that arrived. */
  ghost predicate FromFirst(s: System, id: PaymentId, first: Option<Invoice>) {
    && (id !in s.born ==> first.None?)
    && (id in s.active ==> s.active[id].invoice == first)
    && (forall t :: t in s.tasks && s.tasks[t].id == id && !s.tasks[t].kind.PayInvoice? && Held(s.tasks[t].pc).Some?
          ==> first == Held(s.tasks[t].pc))
  }

  lemma FromFirstAct(task: Task, entry: Option<PaymentInfo>, born: bool, step: Step, first: Option<Invoice>)
    requires TaskOk(task, entry, born) && !task.kind.PayInvoice?
    requires !born ==> first.None?
    requires entry.Some? ==> entry.value.invoice == first
    requires Held(task.pc).Some? ==> first == Held(task.pc)
    ensures var e := Act(task, entry, step);
      && (e.entry.Some? ==> e.entry.value.invoice == first)
      && (Held(e.pc).Some? ==> first == Held(e.pc))
  {
  }

  /** An effect that leaves task and entry with nothing but the first invoice to show. */
  predicate ShowsFirst(task: Task, e: Effect, first: Option<Invoice>) {
    && (e.entry.Some? ==> e.entry.value.invoice == first)
    && (!task.kind.PayInvoice? && Held(e.pc).Some? ==> first == Held(e.pc))
  }

  lemma FromFirstPerform(s: System, t: TaskId, e: Effect, id: PaymentId, first: Option<Invoice>)
    requires FromFirst(s, id, first) && t in s.tasks
    requires s.tasks[t].id == id ==> ShowsFirst(s.tasks[t], e, first)
    ensures FromFirst(Perform(s, t, e), id, first)
  {
  }

  lemma FromFirstMessage(s: System, step: Step, id: PaymentId, first: Option<Invoice>)
    requires FromFirst(s, id, first) && (id in s.active ==> id in s.born)
    ensures FromFirst(MessageStep(s, step), id,
              if first.None? && step.InvoiceArrives? && step.id == id && step.verified && id in s.active
              then Some(step.invoice) else first)
  {
    if id in s.active && first.None? {
      assert forall t :: t in s.tasks && s.tasks[t].id == id && !s.tasks[t].kind.PayInvoice? ==> Held(s.tasks[t].pc).None?;
    }
  }

  lemma FromFirstApply(s: System, step: Step, id: PaymentId, first: Option<Invoice>)
    requires Inv(s) && (Starts(s, step) ==> step.id !in s.drawn)
    requires FromFirst(s, id, first)
    ensures FromFirst(Apply(s, step), id,
              if first.None? && step.InvoiceArrives? && step.id == id && step.verified && id in s.active
              then Some(step.invoice) else first)
  {
    if Acts(s, step) {
      var task := s.tasks[step.task];
      if task.id == id {
        TaskOkAct(task, Entry(s.active, id), id in s.born, step);
        if !task.kind.PayInvoice? {
          FromFirstAct(task, Entry(s.active, id), id in s.born, step, first);
        }
      }
      FromFirstPerform(s, step.task, EffectOf(s, step), id, first);
    } else if Actor(step).None? {
      FromFirstMessage(s, step, id, first);
    }
  }

  lemma {:induction false} FromFirstRun(steps: seq<Step>, id: PaymentId)
    requires FreshIds(steps)
    ensures FromFirst(Run(steps), id, FirstInvoice(steps, id))
  {
    if steps == [] {
    } else {
      var before := steps[..|steps| - 1];
      FromFirstRun(before, id);
      InvRun(before);
      FromFirstApply(Run(before), steps[|steps| - 1], id, FirstInvoice(before, id));
    }
  }

  /**
   Any invoice a task has in hand, paid or not, is the first one that verified for its id and
   was delivered while the id was in the map.
   */
  lemma Provenance(steps: seq<Step>, t: TaskId) returns (i: nat)
    requires FreshIds(steps) && t in Run(steps).tasks
    requires var task := Run(steps).tasks[t]; !task.kind.PayInvoice? && Held(task.pc).Some?
    ensures var task := Run(steps).tasks[t];
      && LiveArrival(steps, i, task.id)
      && Held(task.pc) == Some(steps[i].invoice)
      && forall j: nat :: j < i ==> !LiveArrival(steps, j, task.id)
  {
    var id := Run(steps).tasks[t].id;
    FromFirstRun(steps, id);
    i := FirstInvoiceIsFirst(steps, id);
  }

  // ---- Route queries ----

  /** A query for the task's amount, and for a path of the invoice it has in hand. */
  predicate QueryOk(s: System, q: RouteQuery) {
    && q.task in s.tasks && q.amtMsat == AsI64(s.tasks[q.task].msats)
    && var held := Held(s.tasks[q.task].pc);
       held.Some? && q.paymentHash == held.value.paymentHash && q.path < |held.value.paths|
  }

  ghost predicate QueriesOk(s: System) {
    forall i :: 0 <= i < |s.queries| ==> QueryOk(s, s.queries[i])
  }

  /** An effect that keeps the invoice in hand, and asks for routes for no other. */
  predicate KeepsInvoice(task: Task, e: Effect) {
    && (Held(task.pc).Some? ==> Held(e.pc) == Held(task.pc))
    && (e.query.Some? ==> Some(e.query.value.invoice) == Held(e.pc) && e.query.value.path < |e.query.value.invoice.paths|)
  }

  lemma KeepsAct(task: Task, entry: Option<PaymentInfo>, step: Step)
    ensures KeepsInvoice(task, Act(task, entry, step))
  {
  }

  lemma QueriesPerform(s: System, t: TaskId, e: Effect)
    requires QueriesOk(s) && t in s.tasks && KeepsInvoice(s.tasks[t], e)
    ensures QueriesOk(Perform(s, t, e))
  {
    var s' := Perform(s, t, e);
    forall i | 0 <= i < |s'.queries| ensures QueryOk(s', s'.queries[i]) {
      if i < |s.queries| {
        assert QueryOk(s, s.queries[i]) && s'.queries[i] == s.queries[i];
      }
    }
  }

  lemma QueriesApply(s: System, step: Step)
    requires QueriesOk(s)
    ensures QueriesOk(Apply(s, step))
  {
    if Acts(s, step) {
      KeepsAct(s.tasks[step.task], Entry(s.active, s.tasks[step.task].id), step);
      QueriesPerform(s, step.task, EffectOf(s, step));
    } else {
      assert Apply(s, step).queries == s.queries;
      assert forall i :: 0 <= i < |s.queries| ==> QueryOk(s, s.queries[i]) ==> QueryOk(Apply(s, step), s.queries[i]);
    }
  }

  lemma {:induction false} QueriesRun(steps: seq<Step>)
    ensures QueriesOk(Run(steps))
  {
    if steps == [] {
    } else {
      QueriesRun(steps[..|steps| - 1]);
      QueriesApply(Run(steps[..|steps| - 1]), steps[|steps| - 1]);
    }
  }

  /** Whatever a pay_offer task tries to route is a payment of the first invoice that verified for its id. */
  lemma RoutesOnlyTheFirstInvoice(steps: seq<Step>, k: nat)
    requires FreshIds(steps) && k < |Run(steps).queries|
    ensures var s, q := Run(steps), Run(steps).queries[k];
      && q.task in s.tasks
      && (!s.tasks[q.task].kind.PayInvoice? ==>
            var first := FirstInvoice(steps, s.tasks[q.task].id);
            first.Some? && q.paymentHash == first.value.paymentHash && q.path < |first.value.paths|)
  {
    QueriesRun(steps);
    assert QueryOk(Run(steps), Run(steps).queries[k]);
    FromFirstRun(steps, Run(steps).tasks[Run(steps).queries[k].task].id);
  }

  /** Once an id has left the map, by timeout, error or success, no invoice for it changes anything again. */
  lemma StaleInvoiceIgnored(steps: seq<Step>, m: nat, id: PaymentId, invoice: Invoice, verified: bool)
    requires FreshIds(steps) && m <= |steps|
    requires id in Run(steps[..m]).born && id !in Run(steps[..m]).active
    ensures Run(steps + [InvoiceArrives(id, invoice, verified)]) == Run(steps)
  {
    Lifecycle(steps, m, id);
    RunLast(steps, InvoiceArrives(id, invoice, verified));
  }

  lemma RunLast(steps: seq<Step>, step: Step)
    ensures Run(steps + [step]) == Apply(Run(steps), step)
  {
  }

  // ---- Outbox ----

  function Concat(batches: seq<seq<Message>>): seq<Message> {
    if batches == [] then [] else Concat(batches[..|batches| - 1]) + batches[|batches| - 1]
  }

  /** The messages a step adds to the outbox. */
  function Pushes(s: System, step: Step): seq<Message> {
    if step.Respond? then [InvoiceResponse(step.contents)]
    else if Acts(s, step) && EffectOf(s, step).push.Some? then [EffectOf(s, step).push.value]
    else []
  }

  lemma OutboxStep(s: System, step: Step)
    ensures var s', more := Apply(s, step), Pushes(s, step);
      if step.ReleaseMessages? then s' == s.(pending := [], released := s.released + [s.pending])
      else s'.released == s.released && s'.pending == s.pending + more && s'.pushed == s.pushed + more
  {
  }

  /** What was released, batch after batch, and what is pending are what was pushed: nothing lost, repeated or reordered. */
  lemma {:induction false} OutboxConserved(steps: seq<Step>)
    ensures Concat(Run(steps).released) + Run(steps).pending == Run(steps).pushed
  {
    if steps == [] {
    } else {
      OutboxConserved(steps[..|steps| - 1]);
      var s, s' := Run(steps[..|steps| - 1]), Run(steps);
      OutboxStep(s, steps[|steps| - 1]);
      if steps[|steps| - 1].ReleaseMessages? {
        assert s'.released[..|s.released|] == s.released;
      }
    }
  }

  // ---- A refused task ----

  predicate Outside(s: System, t: TaskId) {
    t !in s.tasks || s.tasks[t].pc.Drawn? || s.tasks[t].pc.Refused?
  }

  function Others(steps: seq<Step>, t: TaskId): seq<Step> {
    if steps == [] then [] else
      var before, step := steps[..|steps| - 1], steps[|steps| - 1];
      Others(before, t) + if Actor(step) == Some(t) then [] else [step]
  }

  /** Apart from task `t` itself, the two systems agree on everything any step looks at, and on all that was sent. */
  predicate SameBut(s: System, u: System, t: TaskId) {
    && u.tasks == s.tasks - {t}
    && u.active == s.active && u.pending == s.pending && u.born == s.born
    && u.pushed == s.pushed && u.released == s.released && u.queries == s.queries
  }

  lemma SameButPerform(s: System, u: System, a: TaskId, e: Effect, t: TaskId)
    requires SameBut(s, u, t) && a != t && a in s.tasks
    ensures SameBut(Perform(s, a, e), Perform(u, a, e), t)
  {
  }

  lemma SameButOther(s: System, u: System, step: Step, t: TaskId)
    requires SameBut(s, u, t) && Actor(step) != Some(t)
    ensures SameBut(Apply(s, step), Apply(u, step), t)
  {
    if Acts(s, step) {
      SameButPerform(s, u, step.task, EffectOf(s, step), t);
    }
  }

  /** A task that has not entered its id is an onlooker, and always was. */
  lemma OutsideAct(task: Task, entry: Option<PaymentInfo>, step: Step)
    ensures var e := Act(task, entry, step);
      e.pc.Drawn? || e.pc.Refused? ==> e == Goto(e.pc, entry) && (task.pc.Drawn? || task.pc.Refused?)
  {
  }

  lemma SameButOwn(s: System, u: System, step: Step, t: TaskId)
    requires Actor(step) == Some(t) && Outside(Apply(s, step), t)
    ensures Outside(s, t)
    ensures SameBut(s, u, t) ==> SameBut(Apply(s, step), u, t)
  {
    if Acts(s, step) {
      var task := s.tasks[t];
      var entry := Entry(s.active, task.id);
      OutsideAct(task, entry, step);
      assert SetEntry(s.active, task.id, entry) == s.active;
    }
  }

  lemma {:induction false} OutsideTask(steps: seq<Step>, t: TaskId)
    requires Outside(Run(steps), t)
    ensures SameBut(Run(steps), Run(Others(steps, t)), t)
  {
    if steps == [] {
    } else {
      var before, step := steps[..|steps| - 1], steps[|steps| - 1];
      if Actor(step) == Some(t) {
        SameButOwn(Run(before), Run(Others(before, t)), step, t);
        OutsideTask(before, t);
        assert Others(steps, t) == Others(before, t);
      } else {
        assert Outside(Run(before), t);
        OutsideTask(before, t);
        SameButOther(Run(before), Run(Others(before, t)), step, t);
        RunLast(Others(before, t), step);
      }
    }
  }

  /**
   Even if ids could repeat, a task refused with AlreadyProcessing leaves no trace: the run
   with all its steps cut out has the same map, messages, route queries and other tasks.
   */
  lemma RefusalLeavesNoTrace(steps: seq<Step>, t: TaskId)
    requires t in Run(steps).tasks && Run(steps).tasks[t].pc.Refused?
    ensures SameBut(Run(steps), Run(Others(steps, t)), t)
  {
    OutsideTask(steps, t);
  }

  // ---- Order of paths ----

  /** The paths a task has had routes queried for, in order. */
  function PathsOf(queries: seq<RouteQuery>, t: TaskId): seq<nat> {
    if queries == [] then [] else
      var q := queries[|queries| - 1];
      PathsOf(queries[..|queries| - 1], t) + if q.task == t then [q.path] else []
  }

  lemma PathsOfAppend(queries: seq<RouteQuery>, q: RouteQuery, t: TaskId)
    ensures PathsOf(queries + [q], t) == PathsOf(queries, t) + if q.task == t then [q.path] else []
  {
    assert (queries + [q])[..|queries|] == queries;
  }

  /** The number of paths a task has queried, as its place in the code shows. */
  function Tried(pc: Pc): nat {
    match pc
    case Paying(_, next, _) => next
    case Sent(_, path, _) => path + 1
    case Tracking(_, path, _) => path + 1
    case Paid(_, path) => path + 1
    case LookupFailed(_, path) => path
    case Unpaid(invoice, _) => |invoice.paths|
    case _ => 0
  }

  predicate TriedInOrder(s: System, t: TaskId) {
    var paths := PathsOf(s.queries, t);
    && (forall i :: 0 <= i < |paths| ==> paths[i] == i)
    && (t !in s.tasks ==> paths == [])
    && (t in s.tasks ==> PcOk(s.tasks[t].pc) && |paths| == Tried(s.tasks[t].pc))
  }

  /** An effect that queries the next path, or none. */
  predicate NextPath(pc: Pc, e: Effect) {
    && (e.query.Some? ==> e.query.value.path == Tried(pc))
    && Tried(e.pc) == Tried(pc) + if e.query.Some? then 1 else 0
  }

  lemma TriedPathStep(invoice: Invoice, next: nat, lastError: Option<Failure>, entry: Option<PaymentInfo>, step: Step)
    requires next <= |invoice.paths|
    ensures NextPath(Paying(invoice, next, lastError), PathStep(invoice, next, lastError, entry, step))
  {
  }

  lemma TriedAct(task: Task, entry: Option<PaymentInfo>, step: Step)
    requires PcOk(task.pc)
    ensures NextPath(task.pc, Act(task, entry, step))
  {
    if task.pc.Paying? {
      TriedPathStep(task.pc.invoice, task.pc.next, task.pc.lastError, entry, step);
    }
  }

  lemma TriedPerform(s: System, a: TaskId, e: Effect, t: TaskId)
    requires a in s.tasks && (a == t ==> NextPath(s.tasks[a].pc, e) && PcOk(e.pc)) && TriedInOrder(s, t)
    ensures TriedInOrder(Perform(s, a, e), t)
  {
    var s' := Perform(s, a, e);
    if e.query.Some? {
      PathsOfAppend(s.queries, s'.queries[|s.queries|], t);
    } else {
      assert s'.queries == s.queries;
    }
  }

  lemma TriedApply(s: System, step: Step, t: TaskId)
    requires TriedInOrder(s, t)
    ensures TriedInOrder(Apply(s, step), t)
  {
    if Acts(s, step) {
      if step.task == t {
        PcOkAct(s.tasks[t], Entry(s.active, s.tasks[t].id), step);
        TriedAct(s.tasks[t], Entry(s.active, s.tasks[t].id), step);
      }
      TriedPerform(s, step.task, EffectOf(s, step), t);
    }
  }

  /**
   Under every interleaving a task queries routes for its paths in order, each at most once: one
   that has paid along a path has tried exactly those up to it, one that has failed has tried
   them all, and one stopped by a lookup those before it.
   */
  lemma {:induction false} PathsInOrder(steps: seq<Step>, t: TaskId)
    ensures TriedInOrder(Run(steps), t)
  {
    if steps == [] {
    } else {
      PathsInOrder(steps[..|steps| - 1], t);
      TriedApply(Run(steps[..|steps| - 1]), steps[|steps| - 1], t);
    }
  }
}
