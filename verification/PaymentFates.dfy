/**
 What can still become of a payment: for every point of every run, exactly when some continuation
 of the run has a task obtain an invoice, deliver it, fail to get one, pay it, run out of paths, or
 return with its id stranded in the map.
 */
module PaymentFates {
  import opened Common
  import opened Payments
  import opened PaymentRuns

  datatype Fate = Obtains | Delivers | Fails | Pays | RunsOut | Strands

  predicate Reached(s: System, t: TaskId, fate: Fate) {
    && t in s.tasks
    && Met(s.tasks[t], Entry(s.active, s.tasks[t].id), fate)
  }

  predicate Met(task: Task, entry: Option<PaymentInfo>, fate: Fate) {
    match fate
    case Obtains => Held(task.pc).Some?
    case Delivers => task.pc.Delivered?
    case Fails => task.pc.Failed?
    case Pays => task.pc.Paid?
    case RunsOut => task.pc.Unpaid?
    case Strands => Returned(task.pc) && entry.Some?
  }

  ghost predicate CanReach(steps: seq<Step>, t: TaskId, fate: Fate) {
    exists more: seq<Step> :: FreshIds(steps + more) && Reached(Run(steps + more), t, fate)
  }

  // ---- The condition ----

  /** The paths of an invoice from `next` on leave room for the fate. */
  predicate Offers(invoice: Invoice, next: nat, fate: Fate) {
    match fate
    case Pays => next < |invoice.paths|
    case Strands => exists i :: next <= i < |invoice.paths| && invoice.paths[i].byScid
    case Fails => false
    case _ => true
  }

  /** get_invoice delivers its invoice, the others pay it. */
  predicate Fits(kind: Kind, fate: Fate) {
    match fate
    case Obtains => true
    case Fails => true
    case Delivers => kind.GetInvoice?
    case _ => !kind.GetInvoice?
  }

  /** What a task, and the entry for its id, must show for the fate to be open. */
  predicate May(task: Task, entry: Option<PaymentInfo>, fate: Fate) {
    var alive := entry.Some? || !fate.Strands?;
    match task.pc
    case Drawn => Fits(task.kind, fate)
    case Requesting => Fits(task.kind, fate) && Awaits(entry, fate)
    case Waiting => Fits(task.kind, fate) && Awaits(entry, fate)
    case Got(invoice) => Fits(task.kind, fate) && alive && Offers(invoice, 0, fate)
    case HandedOver(_) => fate.Obtains? || fate.Delivers?
    case Paying(invoice, next, _) => !fate.Delivers? && alive && Offers(invoice, next, fate)
    case Sent(invoice, path, _) => !fate.Delivers? && alive && (fate.Pays? || Offers(invoice, path + 1, fate))
    case Tracking(invoice, path, _) => !fate.Delivers? && alive && (fate.Pays? || Offers(invoice, path + 1, fate))
    case _ => Met(task, entry, fate)
  }

  /** An entry that is there, and whose invoice is still to come or leaves room for the fate; failing takes none. */
  predicate Awaits(entry: Option<PaymentInfo>, fate: Fate) {
    fate.Fails? || (entry.Some? && (entry.value.invoice.None? || Offers(entry.value.invoice.value, 0, fate)))
  }

  // ---- A run seen from one of its tasks ----

  datatype View = View(task: Task, entry: Option<PaymentInfo>)

  ghost predicate Sees(steps: seq<Step>, t: TaskId, x: View) {
    && FreshIds(steps)
    && t in Run(steps).tasks && Run(steps).tasks[t] == x.task
    && Entry(Run(steps).active, x.task.id) == x.entry
  }

  /** A step of the task, or a verified message for its payment. */
  predicate Concerns(t: TaskId, id: PaymentId, step: Step) {
    || (Actor(step) == Some(t) && !step.Begin? && !step.BeginPayInvoice?)
    || (step.InvoiceArrives? && step.id == id && step.verified)
    || (step.InvoiceErrorArrives? && step.id == id && step.verified)
  }

  function ViewStep(x: View, step: Step): View {
    if step.InvoiceArrives? then x.(entry := Accepting(x.entry, step.invoice))
    else if step.InvoiceErrorArrives? then x.(entry := None)
    else var e := Act(x.task, x.entry, step); View(x.task.(pc := e.pc), e.entry)
  }

  lemma ViewApply(s: System, t: TaskId, step: Step)
    requires t in s.tasks && Concerns(t, s.tasks[t].id, step)
    ensures var s', x' := Apply(s, step), ViewStep(View(s.tasks[t], Entry(s.active, s.tasks[t].id)), step);
      t in s'.tasks && s'.tasks[t] == x'.task && Entry(s'.active, x'.task.id) == x'.entry
  {
  }

  lemma SeesNext(steps: seq<Step>, t: TaskId, x: View, step: Step)
    requires Sees(steps, t, x) && Concerns(t, x.task.id, step)
    ensures Sees(steps + [step], t, ViewStep(x, step))
  {
    RunLast(steps, step);
    assert (steps + [step])[..|steps|] == steps;
    ViewApply(Run(steps), t, step);
  }

  // ---- The condition is sufficient ----

  /** A step towards an open fate. */
  function Toward(t: TaskId, x: View, fate: Fate): Step {
    match x.task.pc
    case Drawn => Insert(t)
    case Requesting => if fate.Fails? then RequestFails(t) else RequestSent(t)
    case Waiting =>
      if fate.Fails? then TimeOut(t)
      else if x.entry.Some? && x.entry.value.invoice.None?
      then InvoiceArrives(x.task.id, Invoice(0, [PaymentPath(true)]), true) else Poll(t)
    case Got(_) => MarkReceived(t)
    case HandedOver(_) => ServerReleases(t)
    case Paying(invoice, next, _) =>
      if fate.Pays? then SendSucceeds(t)
      else if next == |invoice.paths| then PathsExhausted(t)
      else if fate.Strands? && next < |invoice.paths| && invoice.paths[next].byScid then LookupFails(t)
      else SendFails(t)
    case Sent(_, _, _) => MarkDispatched(t)
    case _ => if fate.Pays? then TrackSucceeds(t) else TrackFails(t)
  }

  function Distance(x: View): int {
    match x.task.pc
    case Drawn => 9
    case Requesting => AwaitDistance(x.entry) + 1
    case Waiting => AwaitDistance(x.entry)
    case Got(invoice) => 3 * |invoice.paths| + 2
    case HandedOver(_) => 1
    case Paying(invoice, next, _) => 3 * (|invoice.paths| - next) + 1
    case Sent(invoice, path, _) => 3 * (|invoice.paths| - path)
    case Tracking(invoice, path, _) => 3 * (|invoice.paths| - path) - 1
    case _ => 0
  }

  function AwaitDistance(entry: Option<PaymentInfo>): int {
    if entry.None? then 1
    else if entry.value.invoice.None? then 7
    else 3 * |entry.value.invoice.value.paths| + 3
  }

  predicate Nears(t: TaskId, x: View, fate: Fate, step: Step) {
    var x' := ViewStep(x, step);
    Concerns(t, x.task.id, step) && May(x'.task, x'.entry, fate) && 0 <= Distance(x') < Distance(x)
  }

  lemma NearsInvoice(t: TaskId, x: View, born: bool, fate: Fate)
    requires TaskOk(x.task, x.entry, born) && May(x.task, x.entry, fate) && !Met(x.task, x.entry, fate)
    requires x.task.pc.Drawn? || x.task.pc.Requesting? || x.task.pc.Waiting?
    ensures Nears(t, x, fate, Toward(t, x, fate))
  {
    assert !fate.Fails? ==> Offers(Invoice(0, [PaymentPath(true)]), 0, fate) by {
      assert [PaymentPath(true)][0].byScid;
    }
  }

  lemma NearsPaying(t: TaskId, x: View, born: bool, fate: Fate)
    requires TaskOk(x.task, x.entry, born) && May(x.task, x.entry, fate) && !Met(x.task, x.entry, fate)
    requires x.task.pc.Got? || x.task.pc.HandedOver?
    ensures Nears(t, x, fate, Toward(t, x, fate))
  {
  }

  lemma NearsEnd(t: TaskId, x: View, born: bool, fate: Fate)
    requires TaskOk(x.task, x.entry, born) && May(x.task, x.entry, fate) && !Met(x.task, x.entry, fate)
    requires x.task.pc.Paying? || x.task.pc.Sent? || x.task.pc.Tracking?
    ensures Nears(t, x, fate, Toward(t, x, fate))
  {
  }

  lemma {:induction false} MayReach(steps: seq<Step>, t: TaskId, x: View, fate: Fate)
    requires Sees(steps, t, x) && May(x.task, x.entry, fate)
    ensures CanReach(steps, t, fate)
    decreases Distance(x)
  {
    if Met(x.task, x.entry, fate) {
      assert steps + [] == steps;
    } else {
      InvRun(steps);
      if x.task.pc.Paying? || x.task.pc.Sent? || x.task.pc.Tracking? {
        NearsEnd(t, x, x.task.id in Run(steps).born, fate);
      } else if x.task.pc.Got? || x.task.pc.HandedOver? {
        NearsPaying(t, x, x.task.id in Run(steps).born, fate);
      } else {
        NearsInvoice(t, x, x.task.id in Run(steps).born, fate);
      }
      var step := Toward(t, x, fate);
      SeesNext(steps, t, x, step);
      MayReach(steps + [step], t, ViewStep(x, step), fate);
      ReachedLater(steps, step, t, fate);
    }
  }

  lemma ReachedLater(steps: seq<Step>, step: Step, t: TaskId, fate: Fate)
    requires CanReach(steps + [step], t, fate)
    ensures CanReach(steps, t, fate)
  {
    var more: seq<Step> :| FreshIds(steps + [step] + more) && Reached(Run(steps + [step] + more), t, fate);
    assert steps + [step] + more == steps + ([step] + more);
  }

  // ---- The condition is necessary ----

  lemma MayPathStep(task: Task, entry: Option<PaymentInfo>, step: Step, fate: Fate)
    requires task.pc.Paying? && !May(task, entry, fate) && !task.kind.GetInvoice?
    ensures var e := PathStep(task.pc.invoice, task.pc.next, task.pc.lastError, entry, step);
      !May(task.(pc := e.pc), e.entry, fate)
  {
  }

  lemma MayAct(task: Task, entry: Option<PaymentInfo>, born: bool, step: Step, fate: Fate)
    requires TaskOk(task, entry, born) && !May(task, entry, fate)
    ensures var e := Act(task, entry, step);
      !May(task.(pc := e.pc), e.entry, fate)
  {
    if task.pc.Paying? {
      MayPathStep(task, entry, step, fate);
    }
  }

  lemma MayMessage(task: Task, entry: Option<PaymentInfo>, invoice: Invoice, fate: Fate)
    requires !May(task, entry, fate)
    ensures !May(task, Accepting(entry, invoice), fate) && !May(task, None, fate)
  {
  }

  /** Only a task's own steps, and messages for its id, touch the task or its entry. */
  lemma OthersLeaveAlone(s: System, step: Step, t: TaskId)
    requires Inv(s) && t in s.tasks && Actor(step) != Some(t)
    ensures var s', id := Apply(s, step), s.tasks[t].id;
      && t in s'.tasks && s'.tasks[t] == s.tasks[t]
      && (Entry(s'.active, id) == Entry(s.active, id) || Entry(s'.active, id) == None ||
          (step.InvoiceArrives? && Entry(s'.active, id) == Accepting(Entry(s.active, id), step.invoice)))
  {
    if Acts(s, step) {
      assert s.tasks[step.task].id != s.tasks[t].id;
    }
  }

  lemma MayOwn(s: System, step: Step, t: TaskId, fate: Fate)
    requires Inv(s) && t in s.tasks && Actor(step) == Some(t)
    requires !May(s.tasks[t], Entry(s.active, s.tasks[t].id), fate)
    ensures var s' := Apply(s, step);
      t in s'.tasks && !May(s'.tasks[t], Entry(s'.active, s'.tasks[t].id), fate)
  {
    if Acts(s, step) {
      MayAct(s.tasks[t], Entry(s.active, s.tasks[t].id), s.tasks[t].id in s.born, step, fate);
      assert Apply(s, step) == Perform(s, t, EffectOf(s, step));
    } else {
      assert Apply(s, step) == s;
    }
  }

  lemma MayApply(s: System, step: Step, t: TaskId, fate: Fate)
    requires Inv(s) && t in s.tasks && !May(s.tasks[t], Entry(s.active, s.tasks[t].id), fate)
    ensures var s' := Apply(s, step);
      t in s'.tasks && !May(s'.tasks[t], Entry(s'.active, s'.tasks[t].id), fate)
  {
    var task, entry := s.tasks[t], Entry(s.active, s.tasks[t].id);
    if Actor(step) == Some(t) {
      MayOwn(s, step, t, fate);
    } else {
      OthersLeaveAlone(s, step, t);
      MayMessage(task, entry, if step.InvoiceArrives? then step.invoice else Invoice(0, []), fate);
    }
  }

  lemma {:induction false} NeverReached(steps: seq<Step>, more: seq<Step>, t: TaskId, fate: Fate)
    requires FreshIds(steps + more) && t in Run(steps).tasks
    requires !May(Run(steps).tasks[t], Entry(Run(steps).active, Run(steps).tasks[t].id), fate)
    ensures var s := Run(steps + more);
      t in s.tasks && !May(s.tasks[t], Entry(s.active, s.tasks[t].id), fate)
  {
    if more == [] {
      assert steps + more == steps;
    } else {
      var before := more[..|more| - 1];
      assert (steps + more)[..|steps + more| - 1] == steps + before;
      NeverReached(steps, before, t, fate);
      InvRun(steps + before);
      MayApply(Run(steps + before), more[|more| - 1], t, fate);
    }
  }

  lemma ReachedWasOpen(s: System, t: TaskId, fate: Fate)
    requires Inv(s) && t in s.tasks && !May(s.tasks[t], Entry(s.active, s.tasks[t].id), fate)
    ensures !Reached(s, t, fate)
  {
  }

  // ---- Exactly when ----

  /** At every point of every run: a fate can still come about if, and only if, the task and its entry show `May`. */
  lemma OpenExactlyWhen(steps: seq<Step>, t: TaskId, fate: Fate)
    requires FreshIds(steps) && t in Run(steps).tasks
    ensures CanReach(steps, t, fate) <==>
            May(Run(steps).tasks[t], Entry(Run(steps).active, Run(steps).tasks[t].id), fate)
  {
    var task := Run(steps).tasks[t];
    var entry := Entry(Run(steps).active, task.id);
    if May(task, entry, fate) {
      MayReach(steps, t, View(task, entry), fate);
    } else {
      forall more: seq<Step> | FreshIds(steps + more)
        ensures !Reached(Run(steps + more), t, fate)
      {
        NeverReached(steps, more, t, fate);
        InvRun(steps + more);
        ReachedWasOpen(Run(steps + more), t, fate);
      }
    }
  }

  /** Every task that has returned has released its id, unless its invoice has a path introduced by a scid. */
  lemma NoScidReleases(steps: seq<Step>, t: TaskId)
    requires FreshIds(steps) && t in Run(steps).tasks && Returned(Run(steps).tasks[t].pc)
    requires var invoice := Held(Run(steps).tasks[t].pc); invoice.Some? ==> !Offers(invoice.value, 0, Strands)
    ensures Run(steps).tasks[t].id !in Run(steps).active
  {
    InvRun(steps);
  }

  /** Whether a PayOffer task has a payment left to try, or under way. */
  predicate StillPays(task: Task) {
    && task.kind.PayOffer?
    && match task.pc
       case Got(invoice) => |invoice.paths| > 0
       case Paying(invoice, next, _) => next < |invoice.paths|
       case Sent(_, _, _) => true
       case Tracking(_, _, _) => true
       case _ => false
  }

  lemma StruckView(task: Task, entry: Option<PaymentInfo>)
    requires TaskOk(task, entry, true) && Holding(task)
    ensures May(task, None, Pays) <==> StillPays(task)
    ensures May(task, None, Obtains) <==> Held(task.pc).Some?
    ensures !May(task, None, Strands)
  {
  }

  /**
   An invoice error abandons the entry, not the payment: pay_invoice never looks at the entry
   again. Once the entry has been struck its owner can still pay exactly if it had an invoice
   and was paying or about to; it never obtains one it did not have, and strands nothing.
   */
  lemma StruckPayment(steps: seq<Step>, t: TaskId, id: PaymentId)
    requires FreshIds(steps) && Owns(Run(steps), t, id) && id in Run(steps).active
    ensures var task, struck := Run(steps).tasks[t], steps + [InvoiceErrorArrives(id, true)];
      && Abandoned(struck, id)
      && (CanReach(struck, t, Pays) <==> StillPays(task))
      && (CanReach(struck, t, Obtains) <==> Held(task.pc).Some?)
      && !CanReach(struck, t, Strands)
  {
    InvRun(steps);
    var x := View(Run(steps).tasks[t], Entry(Run(steps).active, id));
    StruckView(x.task, x.entry);
    var error := InvoiceErrorArrives(id, true);
    assert (steps + [error])[..|steps|] == steps;
    SeesNext(steps, t, x, error);
    OpenExactlyWhen(steps + [error], t, Pays);
    OpenExactlyWhen(steps + [error], t, Obtains);
    OpenExactlyWhen(steps + [error], t, Strands);
  }

  /** A task struck before it had an invoice has never had, and never has, a route queried. */
  lemma StruckBeforeInvoice(steps: seq<Step>, more: seq<Step>, t: TaskId, id: PaymentId)
    requires FreshIds(steps) && Owns(Run(steps), t, id) && id in Run(steps).active
    requires Held(Run(steps).tasks[t].pc).None?
    requires FreshIds(steps + [InvoiceErrorArrives(id, true)] + more)
    ensures PathsOf(Run(steps + [InvoiceErrorArrives(id, true)] + more).queries, t) == []
  {
    var struck := steps + [InvoiceErrorArrives(id, true)];
    StruckPayment(steps, t, id);
    SeesNext(steps, t, View(Run(steps).tasks[t], Entry(Run(steps).active, id)), InvoiceErrorArrives(id, true));
    OpenExactlyWhen(struck, t, Obtains);
    NeverReached(struck, more, t, Obtains);
    PathsInOrder(struck + more, t);
  }

  /**
   From the moment pay_offer has its invoice, with its entry in the map: it can return with the
   id stranded there if and only if some path of the invoice is introduced by a scid.
   */
  lemma StrandedIffScid(steps: seq<Step>, t: TaskId)
    requires FreshIds(steps) && t in Run(steps).tasks
    requires Run(steps).tasks[t].kind == PayOffer && Run(steps).tasks[t].pc.Got?
    requires Run(steps).tasks[t].id in Run(steps).active
    ensures CanReach(steps, t, Strands) <==>
            exists i :: 0 <= i < |Run(steps).tasks[t].pc.invoice.paths| && Run(steps).tasks[t].pc.invoice.paths[i].byScid
  {
    OpenExactlyWhen(steps, t, Strands);
  }

  // ---- Two runs of a single task ----

  lemma SameTaskApply(s: System, step: Step, t: TaskId)
    requires t in s.tasks
    ensures t in Apply(s, step).tasks
    ensures Apply(s, step).tasks[t].id == s.tasks[t].id && Apply(s, step).tasks[t].kind == s.tasks[t].kind
  {
    if Acts(s, step) {
      assert Apply(s, step) == Perform(s, step.task, EffectOf(s, step));
    }
  }

  /** A task keeps its id and its kind. */
  lemma {:induction false} SameTask(steps: seq<Step>, more: seq<Step>, t: TaskId)
    requires t in Run(steps).tasks
    ensures t in Run(steps + more).tasks
    ensures Run(steps + more).tasks[t].id == Run(steps).tasks[t].id
    ensures Run(steps + more).tasks[t].kind == Run(steps).tasks[t].kind
  {
    if more == [] {
      assert steps + more == steps;
    } else {
      assert (steps + more)[..|steps + more| - 1] == steps + more[..|more| - 1];
      SameTask(steps, more[..|more| - 1], t);
      SameTaskApply(Run(steps + more[..|more| - 1]), more[|more| - 1], t);
    }
  }

  lemma {:induction false} AbandonedForGood(steps: seq<Step>, more: seq<Step>, id: PaymentId)
    requires Abandoned(steps, id)
    ensures Abandoned(steps + more, id)
  {
    if more == [] {
      assert steps + more == steps;
    } else {
      assert (steps + more)[..|steps + more| - 1] == steps + more[..|more| - 1];
      AbandonedForGood(steps, more[..|more| - 1], id);
    }
  }

  function Newcomer(id: PaymentId): View {
    View(Task(PayOffer, id, None, Some(1), 1, Drawn), None)
  }

  lemma Begins(id: PaymentId) returns (steps: seq<Step>)
    ensures Sees(steps, 0, Newcomer(id))
  {
    steps := [] + [Begin(0, PayOffer, id, None, Some(1), true)];
    assert steps[..0] == [];
  }

  lemma StrandedByLookup(s: System, t: TaskId)
    requires Inv(s) && Reached(s, t, Strands)
    ensures s.tasks[t].pc.LookupFailed? && s.tasks[t].id in s.active
  {
  }

  /** A run that strands an id: every task of a payment can, when it begins. */
  lemma LookupFailureReachable(id: PaymentId) returns (steps: seq<Step>)
    ensures FreshIds(steps) && 0 in Run(steps).tasks
    ensures Run(steps).tasks[0].kind == PayOffer && Run(steps).tasks[0].pc.LookupFailed?
    ensures Run(steps).tasks[0].id == id && id in Run(steps).active
  {
    var begun := Begins(id);
    MayReach(begun, 0, Newcomer(id), Strands);
    var more: seq<Step> :| FreshIds(begun + more) && Reached(Run(begun + more), 0, Strands);
    steps := begun + more;
    InvRun(steps);
    StrandedByLookup(Run(steps), 0);
    SameTask(begun, more, 0);
  }

  /** A run in which a task gets its invoice, its entry being live. */
  lemma Receives(id: PaymentId, invoice: Invoice) returns (steps: seq<Step>)
    ensures Sees(steps, 0, View(Newcomer(id).task.(pc := Got(invoice)), Some(PaymentInfo(InvoiceReceived, Some(invoice)))))
  {
    var x := Newcomer(id);
    steps := Begins(id);
    var script := [Insert(0), RequestSent(0), InvoiceArrives(id, invoice, true), Poll(0)];
    for i := 0 to 4
      invariant Sees(steps, 0, x) && x.task.id == id
      invariant x == [Newcomer(id),
                      View(Newcomer(id).task.(pc := Requesting), Some(NewEntry)),
                      View(Newcomer(id).task.(pc := Waiting), Some(NewEntry)),
                      View(Newcomer(id).task.(pc := Waiting), Some(PaymentInfo(InvoiceReceived, Some(invoice)))),
                      View(Newcomer(id).task.(pc := Got(invoice)), Some(PaymentInfo(InvoiceReceived, Some(invoice))))][i]
    {
      SeesNext(steps, 0, x, script[i]);
      steps, x := steps + [script[i]], ViewStep(x, script[i]);
    }
  }

  /** A run in which a task pays although an invoice error has struck its entry. */
  lemma AbandonedYetPaid(id: PaymentId) returns (steps: seq<Step>)
    ensures FreshIds(steps) && Abandoned(steps, id)
    ensures 0 in Run(steps).tasks && Run(steps).tasks[0].id == id && Run(steps).tasks[0].pc.Paid?
  {
    var got := Receives(id, Invoice(1, [PaymentPath(false)]));
    StruckPayment(got, 0, id);
    var struck := got + [InvoiceErrorArrives(id, true)];
    var more: seq<Step> :| FreshIds(struck + more) && Reached(Run(struck + more), 0, Pays);
    steps := struck + more;
    AbandonedForGood(struck, more, id);
    assert steps == got + ([InvoiceErrorArrives(id, true)] + more);
    SameTask(got, [InvoiceErrorArrives(id, true)] + more, 0);
  }
}
