/**
 The payments of src/offers/handler.rs as a transition system.

 Tasks (`pay_offer`, and the server's `get_invoice` and `pay_invoice` handlers) and incoming
 messages share the map of active payments and the list of pending messages. Every block
 that runs under a lock is one step here; awaiting LND, the network or a timer has no step of
 its own, its outcome is the choice of the next one. Steps of all tasks interleave freely,
 and a step whose task is somewhere else in its code does nothing, so every sequence of
 steps is a run.
 */
module Payments {
  import opened Common
  import opened Amounts

  type PaymentId = nat
  type TaskId = nat

  datatype PaymentState = InvoiceRequestCreated | InvoiceReceived | PaymentDispatched

  /** A blinded path whose introduction node is given by key or by short channel id. */
  datatype PaymentPath = PaymentPath(byScid: bool)

  datatype Invoice = Invoice(paymentHash: nat, paths: seq<PaymentPath>)

  datatype PaymentInfo = PaymentInfo(state: PaymentState, invoice: Option<Invoice>)

  type ActivePayments = map<PaymentId, PaymentInfo>

  datatype Message = InvoiceRequest(id: PaymentId, msats: u64) | InvoiceResponse(contents: nat)

  // ---- What each lock-held block does to the entry for a payment id ----

  function Entry(active: ActivePayments, id: PaymentId): Option<PaymentInfo> {
    if id in active then Some(active[id]) else None
  }

  function SetEntry(active: ActivePayments, id: PaymentId, entry: Option<PaymentInfo>): ActivePayments {
    if entry.Some? then active[id := entry.value] else active - {id}
  }

  const NewEntry := PaymentInfo(InvoiceRequestCreated, None)

  function Marked(entry: Option<PaymentInfo>, state: PaymentState): Option<PaymentInfo> {
    if entry.Some? then Some(entry.value.(state := state)) else None
  }

  function Accepting(entry: Option<PaymentInfo>, invoice: Invoice): Option<PaymentInfo> {
    if entry.Some? && entry.value.invoice.None?
    then Some(PaymentInfo(InvoiceReceived, Some(invoice)))
    else entry
  }

  // ---- Tasks ----

  datatype Kind = PayOffer | GetInvoice | PayInvoice

  datatype Failure = BuildFailure | SendRequestFailure | InvoiceTimeout | RouteFailure | PaymentFailure

  /** Where a task is in its code. */
  datatype Pc =
    | Drawn                                     // has an id, has not entered it in the map
    | Requesting                                // sending the invoice request
    | Waiting                                   // in wait_for_invoice
    | Got(invoice: Invoice)                     // wait_for_invoice has returned
    | HandedOver(invoice: Invoice)              // get_invoice has returned to the server
    | Paying(invoice: Invoice, next: nat, lastError: Option<Failure>)
    | Sent(invoice: Invoice, path: nat, lastError: Option<Failure>)
    | Tracking(invoice: Invoice, path: nat, lastError: Option<Failure>)
    | Refused                                   // AlreadyProcessing
    | Failed(failure: Failure)                  // get_invoice has failed
    | LookupFailed(invoice: Invoice, path: nat) // the early return of pay_invoice
    | Unpaid(invoice: Invoice, failure: Failure)
    | Delivered(invoice: Invoice)               // the server has released a fetched invoice
    | Paid(invoice: Invoice, path: nat)

  datatype Task = Task(
    kind: Kind, id: PaymentId, offer: Option<Amount>, pay: Option<u64>, msats: u64, pc: Pc)

  /** A call of query_routes on behalf of a task, for one of the paths of its invoice. */
  datatype RouteQuery = RouteQuery(task: TaskId, path: nat, paymentHash: nat, amtMsat: int)

  /**
   `drawn` (who drew each id), `born` (ids ever entered in the map), `pushed`, `released` and
   `queries` are history: no step looks at them.
   */
  datatype System = System(
    active: ActivePayments, pending: seq<Message>, tasks: map<TaskId, Task>,
    drawn: map<PaymentId, TaskId>, born: set<PaymentId>,
    pushed: seq<Message>, released: seq<seq<Message>>, queries: seq<RouteQuery>)

  const Init := System(map[], [], map[], map[], {}, [], [], [])

  datatype Step =
    | Begin(task: TaskId, kind: Kind, id: PaymentId, offer: Option<Amount>, pay: Option<u64>, built: bool)
    | BeginPayInvoice(task: TaskId, id: PaymentId, offer: Option<Amount>, pay: Option<u64>, paid: Invoice)
    | Insert(task: TaskId)
    | RequestFails(task: TaskId)
    | RequestSent(task: TaskId)
    | Poll(task: TaskId)
    | TimeOut(task: TaskId)
    | MarkReceived(task: TaskId)
    | ServerReleases(task: TaskId)
    | LookupFails(task: TaskId)
    | SendFails(task: TaskId)
    | SendSucceeds(task: TaskId)
    | MarkDispatched(task: TaskId)
    | TrackFails(task: TaskId)
    | TrackSucceeds(task: TaskId)
    | PathsExhausted(task: TaskId)
    | InvoiceArrives(id: PaymentId, invoice: Invoice, verified: bool)
    | InvoiceErrorArrives(id: PaymentId, verified: bool)
    | Respond(contents: nat)
    | ReleaseMessages

  /** The task whose step this is, if any. */
  function Actor(step: Step): Option<TaskId> {
    match step
    case InvoiceArrives(_, _, _) => None
    case InvoiceErrorArrives(_, _) => None
    case Respond(_) => None
    case ReleaseMessages => None
    case _ => Some(step.task)
  }

  /** Whether this step starts a task, and so draws its payment id. */
  predicate Starts(s: System, step: Step) {
    && (step.Begin? || step.BeginPayInvoice?)
    && step.task !in s.tasks
    && ValidateAmount(step.offer, step.pay).Ok?
  }

  function NewTask(step: Step): Task
    requires (step.Begin? || step.BeginPayInvoice?) && ValidateAmount(step.offer, step.pay).Ok?
  {
    var msats := ValidateAmount(step.offer, step.pay).value;
    if step.Begin? then
      Task(if step.kind.PayOffer? then PayOffer else GetInvoice, step.id, step.offer, step.pay, msats,
           if step.built then Drawn else Failed(BuildFailure))
    else
      Task(PayInvoice, step.id, step.offer, step.pay, msats, Paying(step.paid, 0, None))
  }

  function Enter(s: System, t: TaskId, task: Task): System {
    s.(tasks := s.tasks[t := task], drawn := s.drawn[task.id := t])
  }

  /**
   What a step of a task does: where the task is afterwards, what has become of the entry for
   its id, the message it pushed and the path it asked LND to route a payment along, if any.
   */
  datatype Effect = Effect(
    pc: Pc, entry: Option<PaymentInfo>, push: Option<Message>, query: Option<Ask>)

  datatype Ask = Ask(invoice: Invoice, path: nat)

  function Goto(pc: Pc, entry: Option<PaymentInfo>): Effect {
    Effect(pc, entry, None, None)
  }

  /** A step of a task about to try the path after `next` others, or out of paths. */
  function PathStep(invoice: Invoice, next: nat, lastError: Option<Failure>, entry: Option<PaymentInfo>, step: Step)
    : Effect
  {
    var ask := Some(Ask(invoice, next));
    if next < |invoice.paths| then
      if step.LookupFails? && invoice.paths[next].byScid then Goto(LookupFailed(invoice, next), entry)
      else if step.SendFails? then Effect(Paying(invoice, next + 1, Some(RouteFailure)), entry, None, ask)
      else if step.SendSucceeds? then Effect(Sent(invoice, next, lastError), entry, None, ask)
      else Goto(Paying(invoice, next, lastError), entry)
    else
      if step.PathsExhausted?
      then Goto(Unpaid(invoice, if lastError.Some? then lastError.value else PaymentFailure), None)
      else Goto(Paying(invoice, next, lastError), entry)
  }

  /** A step of get_invoice, of the server after it, or of pay_invoice. */
  function Act(task: Task, entry: Option<PaymentInfo>, step: Step): Effect {
    match task.pc
    case Drawn =>
      if !step.Insert? then Goto(Drawn, entry)
      else if entry.Some? then Goto(Refused, entry)
      else Goto(Requesting, Some(NewEntry))
    case Requesting =>
      if step.RequestFails? then Goto(Failed(SendRequestFailure), None)
      else if step.RequestSent? then Effect(Waiting, entry, Some(InvoiceRequest(task.id, task.msats)), None)
      else Goto(Requesting, entry)
    case Waiting =>
      if step.Poll? && entry.Some? && entry.value.invoice.Some? then Goto(Got(entry.value.invoice.value), entry)
      else if step.TimeOut? then Goto(Failed(InvoiceTimeout), None)
      else Goto(Waiting, entry)
    case Got(invoice) =>
      if step.MarkReceived? then
        Goto(if task.kind.GetInvoice? then HandedOver(invoice) else Paying(invoice, 0, None),
             Marked(entry, InvoiceReceived))
      else Goto(task.pc, entry)
    case HandedOver(invoice) =>
      if step.ServerReleases? then Goto(Delivered(invoice), None) else Goto(task.pc, entry)
    case Paying(invoice, next, lastError) => PathStep(invoice, next, lastError, entry, step)
    case Sent(invoice, path, lastError) =>
      if step.MarkDispatched? then Goto(Tracking(invoice, path, lastError), Marked(entry, PaymentDispatched))
      else Goto(task.pc, entry)
    case Tracking(invoice, path, lastError) =>
      if step.TrackFails? then Goto(Paying(invoice, path + 1, Some(PaymentFailure)), entry)
      else if step.TrackSucceeds? then Goto(Paid(invoice, path), None)
      else Goto(task.pc, entry)
    case _ => Goto(task.pc, entry)
  }

  function Perform(s: System, t: TaskId, e: Effect): System
    requires t in s.tasks
  {
    var task := s.tasks[t];
    var pushed := if e.push.Some? then [e.push.value] else [];
    s.(tasks := s.tasks[t := task.(pc := e.pc)],
       active := SetEntry(s.active, task.id, e.entry),
       born := if e.entry.Some? && task.id !in s.active then s.born + {task.id} else s.born,
       pending := s.pending + pushed,
       pushed := s.pushed + pushed,
       queries := s.queries +
         if e.query.Some?
         then [RouteQuery(t, e.query.value.path, e.query.value.invoice.paymentHash, AsI64(task.msats))] else [])
  }

  /** A message handled by the OffersMessageHandler, or the messenger collecting the outbox. */
  function MessageStep(s: System, step: Step): System {
    match step
    case InvoiceArrives(id, invoice, verified) =>
      if verified then s.(active := SetEntry(s.active, id, Accepting(Entry(s.active, id), invoice))) else s
    case InvoiceErrorArrives(id, verified) =>
      if verified then s.(active := SetEntry(s.active, id, None)) else s
    case Respond(contents) =>
      s.(pending := s.pending + [InvoiceResponse(contents)], pushed := s.pushed + [InvoiceResponse(contents)])
    case ReleaseMessages => s.(pending := [], released := s.released + [s.pending])
    case _ => s
  }

  /** A step of a task that is under way. */
  predicate Acts(s: System, step: Step) {
    Actor(step).Some? && !step.Begin? && !step.BeginPayInvoice? && step.task in s.tasks
  }

  /** What such a step does, seen by its task. */
  function EffectOf(s: System, step: Step): Effect
    requires Acts(s, step)
  {
    var task := s.tasks[step.task];
    Act(task, Entry(s.active, task.id), step)
  }

  function Apply(s: System, step: Step): System {
    if step.Begin? || step.BeginPayInvoice? then
      if Starts(s, step) then Enter(s, step.task, NewTask(step)) else s
    else if Actor(step).None? then MessageStep(s, step)
    else if Acts(s, step) then Perform(s, step.task, EffectOf(s, step))
    else s
  }

  function Run(steps: seq<Step>): System {
    if steps == [] then Init else Apply(Run(steps[..|steps| - 1]), steps[|steps| - 1])
  }

  /** The 32 random bytes of a payment id are never drawn twice in a run. */
  predicate FreshIds(steps: seq<Step>) {
    steps == [] ||
    var before, step := steps[..|steps| - 1], steps[|steps| - 1];
    && FreshIds(before)
    && (Starts(Run(before), step) ==> step.id !in Run(before).drawn)
  }
}
