/**
 The OfferHandler object of src/offers/handler.rs: its lock-held blocks, proved against the
 functions the transition system of `Payments` is made of, and the loop of pay_invoice, proved
 to refine "the first path that works". Answers of LND are parameters.
 */
module OfferHandlers {
  import opened Common
  import opened Payments

  datatype OfferError =
    | AlreadyProcessing(id: PaymentId)
    | GetChannelInfo(message: nat)
    | RouteError(message: nat)
    | PaymentError

  datatype PaymentStatus = Succeeded | Failing | Unsettled

  /** What the payment stream yields; it may also just end. */
  datatype TrackItem = Update(status: PaymentStatus, preimage: nat) | StreamError

  type Route = nat

  /** How LND answers while one path is tried. */
  datatype Attempt = Attempt(
    lookup: Result<nat, nat>,          // node id of the scid, for a path introduced by one
    routes: Result<seq<Route>, nat>,   // query_routes
    sent: Result<(), nat>,             // send_to_route
    trackOpened: bool,                 // track_payment_v2
    updates: seq<TrackItem>)

  datatype LndCall =
    | QueryRoutes(path: nat, amtMsat: int)
    | SendToRoute(paymentHash: nat, route: Route)
    | TrackPayment(paymentHash: nat)

  /** query_routes never succeeds without a route: the code indexes the first one. */
  predicate WellBehaved(a: Attempt) {
    a.routes.Ok? ==> |a.routes.value| > 0
  }

  predicate Dispatches(a: Attempt) {
    a.routes.Ok? && a.sent.Ok?
  }

  /** The update at `i` settles the payment: it succeeded there, and had not failed before. */
  predicate SettlesAt(updates: seq<TrackItem>, i: nat) {
    && i < |updates| && updates[i].Update? && updates[i].status == Succeeded
    && forall j :: 0 <= j < i ==> updates[j].Update? && updates[j].status == Unsettled
  }

  ghost predicate Settles(a: Attempt) {
    a.trackOpened && exists i: nat :: SettlesAt(a.updates, i)
  }

  ghost predicate Works(a: Attempt) {
    Dispatches(a) && Settles(a)
  }

  /** pay_invoice gives up at this path, whatever comes after it. */
  predicate Aborts(path: PaymentPath, a: Attempt) {
    path.byScid && a.lookup.Err?
  }

  ghost predicate Stops(path: PaymentPath, a: Attempt) {
    Aborts(path, a) || Works(a)
  }

  /** The error a path that did not work leaves behind. */
  function PathError(a: Attempt): OfferError {
    if a.routes.Err? then RouteError(a.routes.error)
    else if a.sent.Err? then RouteError(a.sent.error)
    else PaymentError
  }

  /** The first path at which pay_invoice stops, or the number of paths. */
  ghost function FirstStop(paths: seq<PaymentPath>, attempts: seq<Attempt>): (n: nat)
    requires |attempts| == |paths|
    ensures n <= |paths| && (n < |paths| ==> Stops(paths[n], attempts[n]))
    ensures forall j :: 0 <= j < n ==> !Stops(paths[j], attempts[j])
  {
    if paths == [] then 0
    else if Stops(paths[0], attempts[0]) then 0
    else
      var n := FirstStop(paths[1..], attempts[1..]);
      assert forall j :: 1 <= j < n + 1 ==> paths[j] == paths[1..][j - 1] && attempts[j] == attempts[1..][j - 1];
      1 + n
  }

  lemma StopsFirstAt(paths: seq<PaymentPath>, attempts: seq<Attempt>, n: nat)
    requires |attempts| == |paths| && n <= |paths| && (n < |paths| ==> Stops(paths[n], attempts[n]))
    requires forall j :: 0 <= j < n ==> !Stops(paths[j], attempts[j])
    ensures FirstStop(paths, attempts) == n
  {
  }

  /** Every path before the first stop, and that one too if it worked. */
  ghost function PathsTried(paths: seq<PaymentPath>, attempts: seq<Attempt>): nat
    requires |attempts| == |paths|
  {
    var n := FirstStop(paths, attempts);
    if n == |paths| || Aborts(paths[n], attempts[n]) then n else n + 1
  }

  /** The result of an attempt that first stopped at path `n`. */
  ghost predicate IsOutcome(paths: seq<PaymentPath>, attempts: seq<Attempt>, n: nat, r: Result<nat, OfferError>)
    requires |attempts| == |paths| && n <= |paths|
  {
    if n == |paths| then r == Err(if n == 0 then PaymentError else PathError(attempts[n - 1]))
    else if Aborts(paths[n], attempts[n]) then r == Err(GetChannelInfo(attempts[n].lookup.error))
    else r.Ok? && exists u: nat :: SettlesAt(attempts[n].updates, u) && r.value == attempts[n].updates[u].preimage
  }

  /** The payment comes back with a path that failed to resolve before any path worked. */
  ghost predicate GivesUp(paths: seq<PaymentPath>, attempts: seq<Attempt>)
    requires |attempts| == |paths|
  {
    var n := FirstStop(paths, attempts);
    n < |paths| && Aborts(paths[n], attempts[n])
  }

  /** The map after paths of which some, or none, were dispatched. */
  function AfterPaths(active: ActivePayments, id: PaymentId, dispatched: bool): ActivePayments {
    var entry := Entry(active, id);
    SetEntry(active, id, if dispatched then Marked(entry, PaymentDispatched) else entry)
  }

  predicate AnyDispatched(attempts: seq<Attempt>) {
    exists j :: 0 <= j < |attempts| && Dispatches(attempts[j])
  }

  /** The map after pay_invoice. */
  ghost function MapAfter(active: ActivePayments, id: PaymentId, paths: seq<PaymentPath>, attempts: seq<Attempt>)
    : ActivePayments
    requires |attempts| == |paths|
  {
    if GivesUp(paths, attempts) then AfterPaths(active, id, AnyDispatched(attempts[..FirstStop(paths, attempts)]))
    else SetEntry(active, id, None)
  }

  predicate AllWellBehaved(attempts: seq<Attempt>) {
    forall i :: 0 <= i < |attempts| ==> WellBehaved(attempts[i])
  }

  /**
   The reminder on pay_invoice asks for the id to be released on every error. The id is out of
   the map for every behaviour of LND exactly if it was not in it before, or no path of the
   invoice is introduced by a scid.
   */
  lemma AlwaysReleasedIffNoScid(active: ActivePayments, id: PaymentId, paths: seq<PaymentPath>)
    ensures (forall attempts :: |attempts| == |paths| && AllWellBehaved(attempts) ==>
               id !in MapAfter(active, id, paths, attempts)) <==>
            id !in active || forall i :: 0 <= i < |paths| ==> !paths[i].byScid
  {
    if i :| 0 <= i < |paths| && paths[i].byScid {
      var attempts := seq(|paths|, _ => Attempt(Err(0), Err(0), Err(0), false, []));
      assert Stops(paths[i], attempts[i]);
      assert id in active ==> id in MapAfter(active, id, paths, attempts);
    }
  }

  // ---- One payment in flight at a time ----

  /** The update at `i` fails the payment for good. */
  predicate FailsAt(updates: seq<TrackItem>, i: nat) {
    && i < |updates| && updates[i].Update? && updates[i].status == Failing
    && forall j :: 0 <= j < i ==> updates[j].Update? && updates[j].status == Unsettled
  }

  ghost predicate SeenFailed(a: Attempt) {
    a.trackOpened && exists i: nat :: FailsAt(a.updates, i)
  }

  /** The payment stream breaks off, or ends, with the payment still unsettled. */
  predicate Lost(a: Attempt) {
    !a.trackOpened || BreaksOff(a.updates)
  }

  predicate BreaksOff(updates: seq<TrackItem>) {
    updates == [] || updates[0].StreamError? || (updates[0].status == Unsettled && BreaksOff(updates[1..]))
  }

  lemma {:induction false} SettlesFailsOrBreaksOff(updates: seq<TrackItem>)
    ensures BreaksOff(updates) <==> forall i: nat :: !SettlesAt(updates, i) && !FailsAt(updates, i)
  {
    if updates == [] || updates[0].StreamError? {
    } else if updates[0].status == Unsettled {
      var rest := updates[1..];
      SettlesFailsOrBreaksOff(rest);
      forall i: nat
        ensures SettlesAt(rest, i) <==> SettlesAt(updates, i + 1)
        ensures FailsAt(rest, i) <==> FailsAt(updates, i + 1)
      {
        assert forall j :: 0 <= j < i && i <= |rest| ==> rest[j] == updates[j + 1];
      }
      assert forall i: nat :: SettlesAt(updates, i) || FailsAt(updates, i) ==>
        i > 0 && (SettlesAt(rest, i - 1) || FailsAt(rest, i - 1));
    } else {
      assert SettlesAt(updates, 0) || FailsAt(updates, 0);
    }
  }

  /** Payments are sent along both of these paths, one after the other. */
  ghost predicate BothSent(paths: seq<PaymentPath>, attempts: seq<Attempt>, i: nat, j: nat)
    requires |attempts| == |paths|
  {
    i < j < PathsTried(paths, attempts) && Dispatches(attempts[i]) && Dispatches(attempts[j])
  }

  /** No payment is sent while an earlier one might still go through. */
  ghost predicate OneInFlight(paths: seq<PaymentPath>, attempts: seq<Attempt>)
    requires |attempts| == |paths|
  {
    forall i: nat, j: nat :: BothSent(paths, attempts, i, j) ==> SeenFailed(attempts[i])
  }

  /** That is so exactly if no payment is sent after one whose stream was lost. */
  lemma OneInFlightIffNoneLost(paths: seq<PaymentPath>, attempts: seq<Attempt>)
    requires |attempts| == |paths|
    ensures OneInFlight(paths, attempts) <==>
            forall i: nat, j: nat :: BothSent(paths, attempts, i, j) ==> !Lost(attempts[i])
  {
    forall i: nat, j: nat | BothSent(paths, attempts, i, j)
      ensures SeenFailed(attempts[i]) <==> !Lost(attempts[i])
    {
      assert !Stops(paths[i], attempts[i]);
      SettlesFailsOrBreaksOff(attempts[i].updates);
    }
  }

  /** LND can be relied on never to bring about a second payment in flight only where there is no second path. */
  lemma OneInFlightIffOnePath(paths: seq<PaymentPath>)
    ensures (forall attempts :: |attempts| == |paths| && AllWellBehaved(attempts) ==> OneInFlight(paths, attempts)) <==>
            |paths| <= 1
  {
    if |paths| > 1 {
      var attempts := seq(|paths|, _ => Attempt(Ok(0), Ok([0]), Ok(()), true, [StreamError]));
      assert forall j :: 0 <= j < |paths| ==> !Stops(paths[j], attempts[j]);
      StopsFirstAt(paths, attempts, |paths|);
      OneInFlightIffNoneLost(paths, attempts);
      assert BothSent(paths, attempts, 0, 1) && Lost(attempts[0]);
    }
  }

  lemma AfterPathsTwice(active: ActivePayments, id: PaymentId, before: bool, now: bool)
    ensures AfterPaths(AfterPaths(active, id, before), id, now) == AfterPaths(active, id, before || now)
    ensures SetEntry(AfterPaths(active, id, before), id, None) == SetEntry(active, id, None)
    ensures AfterPaths(active, id, false) == active
  {
  }

  lemma AnyDispatchedNext(attempts: seq<Attempt>, i: nat)
    requires i < |attempts|
    ensures AnyDispatched(attempts[..i + 1]) == (AnyDispatched(attempts[..i]) || Dispatches(attempts[i]))
  {
  }

  /** The paths 0, 1, ... up to `n`, each once. */
  predicate InOrder(paths: seq<nat>, n: nat) {
    |paths| == n && forall k :: 0 <= k < n ==> paths[k] == k
  }

  /** The paths routes were queried for, in order. */
  function Queried(calls: seq<LndCall>): seq<nat> {
    if calls == [] then [] else
      var call := calls[|calls| - 1];
      Queried(calls[..|calls| - 1]) + if call.QueryRoutes? then [call.path] else []
  }

  lemma {:induction false} QueriedAppend(calls: seq<LndCall>, more: seq<LndCall>)
    ensures Queried(calls + more) == Queried(calls) + Queried(more)
  {
    if more == [] {
      assert calls + more == calls;
    } else {
      QueriedAppend(calls, more[..|more| - 1]);
      assert (calls + more)[..|calls + more| - 1] == calls + more[..|more| - 1];
    }
  }

  predicate SamePayment(c: LndCall, invoice: Invoice, amount: u64) {
    match c
    case QueryRoutes(_, amtMsat) => amtMsat == AsI64(amount)
    case SendToRoute(paymentHash, _) => paymentHash == invoice.paymentHash
    case TrackPayment(paymentHash) => paymentHash == invoice.paymentHash
  }

  predicate SamePayments(calls: seq<LndCall>, invoice: Invoice, amount: u64) {
    forall c :: c in calls ==> SamePayment(c, invoice, amount)
  }

  /** What is asked of LND for one path: its routes, the payment along the first of them, and how that fares. */
  function PathCalls(i: nat, invoice: Invoice, amount: u64, a: Attempt): seq<LndCall>
    requires WellBehaved(a)
  {
    [QueryRoutes(i, AsI64(amount))] +
    (if a.routes.Ok? then [SendToRoute(invoice.paymentHash, a.routes.value[0])] else []) +
    if Dispatches(a) then [TrackPayment(invoice.paymentHash)] else []
  }

  /** The same for the first `n` paths, one after the other. */
  function LoopCalls(invoice: Invoice, amount: u64, attempts: seq<Attempt>, n: nat): seq<LndCall>
    requires n <= |attempts| && AllWellBehaved(attempts)
  {
    if n == 0 then [] else
      LoopCalls(invoice, amount, attempts, n - 1) + PathCalls(n - 1, invoice, amount, attempts[n - 1])
  }

  /** The path routes were last queried for. */
  function LastQueried(calls: seq<LndCall>): int {
    if calls == [] then -1
    else if calls[|calls| - 1].QueryRoutes? then calls[|calls| - 1].path
    else LastQueried(calls[..|calls| - 1])
  }

  datatype Deed = Sends | Tracks

  predicate Does(c: LndCall, deed: Deed) {
    if deed.Sends? then c.SendToRoute? else c.TrackPayment?
  }

  /** The paths on whose behalf payments were sent, or tracked, one for each such call. */
  function Done(calls: seq<LndCall>, deed: Deed): seq<int> {
    if calls == [] then [] else
      var before, c := calls[..|calls| - 1], calls[|calls| - 1];
      Done(before, deed) + if Does(c, deed) then [LastQueried(before)] else []
  }

  lemma DoneNext(calls: seq<LndCall>, c: LndCall, all: seq<LndCall>, deed: Deed)
    requires all == calls + [c]
    ensures Done(all, deed) == Done(calls, deed) + if Does(c, deed) then [LastQueried(calls)] else []
    ensures LastQueried(all) == if c.QueryRoutes? then c.path else LastQueried(calls)
  {
    assert all[..|all| - 1] == calls;
  }

  /** Whether LND's answers lead to the deed on a path. */
  predicate LeadsTo(a: Attempt, deed: Deed) {
    if deed.Sends? then a.routes.Ok? else Dispatches(a)
  }

  lemma DonePath(calls: seq<LndCall>, all: seq<LndCall>, i: nat, invoice: Invoice, amount: u64, a: Attempt, deed: Deed)
    requires WellBehaved(a) && all == calls + PathCalls(i, invoice, amount, a)
    ensures Done(all, deed) == Done(calls, deed) + if LeadsTo(a, deed) then [i] else []
  {
    var query, track := QueryRoutes(i, AsI64(amount)), TrackPayment(invoice.paymentHash);
    var queried := calls + [query];
    DoneNext(calls, query, queried, deed);
    if a.routes.Err? {
      assert all == queried;
    } else {
      var send := SendToRoute(invoice.paymentHash, a.routes.value[0]);
      var sent := queried + [send];
      DoneNext(queried, send, sent, deed);
      if a.sent.Err? {
        assert all == sent;
      } else {
        assert all == sent + [track];
        DoneNext(sent, track, all, deed);
      }
    }
  }

  /** These are, in order, exactly the paths among the first `n` on which LND's answers lead to the deed. */
  ghost predicate ExactlyDone(done: seq<int>, attempts: seq<Attempt>, n: nat, deed: Deed)
    requires n <= |attempts|
  {
    && (forall j, k :: 0 <= j < k < |done| ==> done[j] < done[k])
    && (forall i :: i in done <==> 0 <= i < n && LeadsTo(attempts[i], deed))
  }

  lemma ExactlyDoneNext(done: seq<int>, attempts: seq<Attempt>, n: nat, deed: Deed)
    requires n < |attempts| && ExactlyDone(done, attempts, n, deed)
    ensures ExactlyDone(done + if LeadsTo(attempts[n], deed) then [n] else [], attempts, n + 1, deed)
  {
    assert forall j :: 0 <= j < |done| ==> done[j] in done;
  }

  lemma ExactlyDonePath(calls: seq<LndCall>, all: seq<LndCall>, n: nat,
                        invoice: Invoice, amount: u64, attempts: seq<Attempt>, deed: Deed)
    requires n < |attempts| && WellBehaved(attempts[n]) && all == calls + PathCalls(n, invoice, amount, attempts[n])
    requires ExactlyDone(Done(calls, deed), attempts, n, deed)
    ensures ExactlyDone(Done(all, deed), attempts, n + 1, deed)
  {
    DonePath(calls, all, n, invoice, amount, attempts[n], deed);
    ExactlyDoneNext(Done(calls, deed), attempts, n, deed);
  }

  /**
   A payment is sent exactly once for each path LND has routes for, and tracked exactly once
   for each it is sent along, path after path.
   */
  lemma {:induction false} OncePerPath(invoice: Invoice, amount: u64, attempts: seq<Attempt>, n: nat, deed: Deed)
    requires n <= |attempts| && AllWellBehaved(attempts)
    ensures ExactlyDone(Done(LoopCalls(invoice, amount, attempts, n), deed), attempts, n, deed)
  {
    if n == 0 {
    } else {
      OncePerPath(invoice, amount, attempts, n - 1, deed);
      ExactlyDonePath(LoopCalls(invoice, amount, attempts, n - 1), LoopCalls(invoice, amount, attempts, n), n - 1,
                      invoice, amount, attempts, deed);
    }
  }

  lemma {:induction false} NoneQueried(calls: seq<LndCall>)
    requires forall c :: c in calls ==> !c.QueryRoutes?
    ensures Queried(calls) == []
  {
    if calls == [] {
    } else {
      NoneQueried(calls[..|calls| - 1]);
    }
  }

  lemma PathCallsOne(i: nat, invoice: Invoice, amount: u64, a: Attempt)
    requires WellBehaved(a)
    ensures Queried(PathCalls(i, invoice, amount, a)) == [i]
    ensures SamePayments(PathCalls(i, invoice, amount, a), invoice, amount)
  {
    var calls := PathCalls(i, invoice, amount, a);
    QueriedAppend([QueryRoutes(i, AsI64(amount))], calls[1..]);
    assert calls == [QueryRoutes(i, AsI64(amount))] + calls[1..];
    NoneQueried(calls[1..]);
  }

  /** Paths are queried in order, each once, all with the same payment hash and amount. */
  lemma {:induction false} LoopCallsInOrder(invoice: Invoice, amount: u64, attempts: seq<Attempt>, n: nat)
    requires n <= |attempts| && AllWellBehaved(attempts)
    ensures InOrder(Queried(LoopCalls(invoice, amount, attempts, n)), n)
    ensures SamePayments(LoopCalls(invoice, amount, attempts, n), invoice, amount)
  {
    if n == 0 {
    } else {
      LoopCallsInOrder(invoice, amount, attempts, n - 1);
      PathCallsOne(n - 1, invoice, amount, attempts[n - 1]);
      QueriedAppend(LoopCalls(invoice, amount, attempts, n - 1), PathCalls(n - 1, invoice, amount, attempts[n - 1]));
    }
  }

  /** Queries routes, then sends along the first. */
  method SendPayment(path: nat, paymentHash: nat, msats: u64, a: Attempt)
    returns (r: Result<(), OfferError>, calls: seq<LndCall>)
    requires WellBehaved(a)
    ensures r == if a.routes.Err? then Err(RouteError(a.routes.error))
                 else if a.sent.Err? then Err(RouteError(a.sent.error)) else Ok(())
    ensures calls == [QueryRoutes(path, AsI64(msats))] +
                     if a.routes.Ok? then [SendToRoute(paymentHash, a.routes.value[0])] else []
  {
    calls := [QueryRoutes(path, AsI64(msats))];
    if a.routes.Err? {
      return Err(RouteError(a.routes.error)), calls;
    }
    var route := a.routes.value[0];
    calls := calls + [SendToRoute(paymentHash, route)];
    if a.sent.Err? {
      return Err(RouteError(a.sent.error)), calls;
    }
    return Ok(()), calls;
  }

  /** Follows the payment until it settles; every error has become PaymentFailure. */
  method Track(a: Attempt) returns (r: Result<nat, OfferError>)
    ensures r.Ok? <==> Settles(a)
    ensures r.Ok? ==> exists i: nat :: SettlesAt(a.updates, i) && r.value == a.updates[i].preimage
    ensures r.Err? ==> r.error == PaymentError
  {
    if !a.trackOpened {
      return Err(PaymentError);
    }
    for i := 0 to |a.updates|
      invariant forall j :: 0 <= j < i ==> a.updates[j].Update? && a.updates[j].status == Unsettled
    {
      var item := a.updates[i];
      if item.StreamError? {
        return Err(PaymentError);
      }
      if item.status == Succeeded {
        assert SettlesAt(a.updates, i);
        return Ok(item.preimage);
      } else if item.status == Failing {
        return Err(PaymentError);
      }
    }
    return Err(PaymentError);
  }

  class OfferHandler {
    var activePayments: ActivePayments
    var pendingMessages: seq<Message>

    constructor ()
      ensures activePayments == Init.active && pendingMessages == Init.pending
    {
      activePayments, pendingMessages := map[], [];
    }

    method InsertPayment(id: PaymentId) returns (r: Result<(), OfferError>)
      modifies this`activePayments
      ensures r == if id in old(activePayments) then Err(AlreadyProcessing(id)) else Ok(())
      ensures activePayments ==
              SetEntry(old(activePayments), id,
                       if r.Ok? then Some(NewEntry) else Entry(old(activePayments), id))
    {
      if id in activePayments {
        return Err(AlreadyProcessing(id));
      }
      activePayments := activePayments[id := PaymentInfo(InvoiceRequestCreated, None)];
      return Ok(());
    }

    method RemoveActivePayment(id: PaymentId)
      modifies this`activePayments
      ensures activePayments == SetEntry(old(activePayments), id, None)
    {
      activePayments := activePayments - {id};
    }

    method MarkState(id: PaymentId, state: PaymentState)
      modifies this`activePayments
      ensures activePayments == SetEntry(old(activePayments), id, Marked(Entry(old(activePayments), id), state))
    {
      if id in activePayments {
        activePayments := activePayments[id := activePayments[id].(state := state)];
      }
    }

    method PushMessage(m: Message)
      modifies this`pendingMessages
      ensures pendingMessages == old(pendingMessages) + [m]
    {
      pendingMessages := pendingMessages + [m];
    }

    method ReleasePendingMessages() returns (messages: seq<Message>)
      modifies this`pendingMessages
      ensures messages == old(pendingMessages) && pendingMessages == []
    {
      messages := pendingMessages;
      pendingMessages := [];
    }

    /** An invoice from the network; `outbound` is the id in an OutboundPayment context. Whether we reply with an error. */
    method HandleInvoice(invoice: Invoice, outbound: Option<PaymentId>, verified: bool, responder: bool)
      returns (replies: bool)
      modifies this`activePayments
      ensures replies <==> outbound.Some? && !verified && responder
      ensures activePayments ==
              if outbound.Some? && verified
              then SetEntry(old(activePayments), outbound.value,
                            Accepting(Entry(old(activePayments), outbound.value), invoice))
              else old(activePayments)
    {
      if outbound.None? {
        return false;
      }
      var id := outbound.value;
      if !verified {
        return responder;
      }
      if id !in activePayments {
        return false;
      }
      if activePayments[id].invoice.Some? {
        return false;
      }
      activePayments := activePayments[id := PaymentInfo(InvoiceReceived, Some(invoice))];
      return false;
    }

    method HandleInvoiceError(id: PaymentId, verified: bool)
      modifies this`activePayments
      ensures activePayments == if verified then SetEntry(old(activePayments), id, None) else old(activePayments)
    {
      if verified {
        RemoveActivePayment(id);
      }
    }

    /** One turn of the loop of pay_invoice: path `i`, of which LND behaves like `a`. */
    method TryPath(id: PaymentId, i: nat, amount: u64, invoice: Invoice, a: Attempt)
      returns (r: Result<nat, OfferError>, calls: seq<LndCall>)
      requires i < |invoice.paths| && WellBehaved(a)
      modifies this`activePayments
      ensures Aborts(invoice.paths[i], a) ==>
        r == Err(GetChannelInfo(a.lookup.error)) && calls == [] && activePayments == old(activePayments)
      ensures !Aborts(invoice.paths[i], a) ==>
        && (r.Ok? <==> Works(a))
        && (r.Ok? ==> exists u: nat :: SettlesAt(a.updates, u) && r.value == a.updates[u].preimage)
        && (r.Err? ==> r.error == PathError(a))
        && calls == PathCalls(i, invoice, amount, a)
        && activePayments == AfterPaths(old(activePayments), id, Dispatches(a))
    {
      if invoice.paths[i].byScid && a.lookup.Err? {
        return Err(GetChannelInfo(a.lookup.error)), [];
      }
      var sent;
      sent, calls := SendPayment(i, invoice.paymentHash, amount, a);
      if sent.Err? {
        return Err(sent.error), calls;
      }
      MarkState(id, PaymentDispatched);
      r := Track(a);
      calls := calls + [TrackPayment(invoice.paymentHash)];
    }

    /** The loop of pay_invoice: each path until one works, or does not resolve. */
    method TryPaths(id: PaymentId, amount: u64, invoice: Invoice, attempts: seq<Attempt>)
      returns (n: nat, r: Result<nat, OfferError>, calls: seq<LndCall>)
      requires |attempts| == |invoice.paths| && AllWellBehaved(attempts)
      modifies this`activePayments
      ensures n <= |invoice.paths| && (n < |invoice.paths| ==> Stops(invoice.paths[n], attempts[n]))
      ensures forall j :: 0 <= j < n ==> !Stops(invoice.paths[j], attempts[j])
      ensures IsOutcome(invoice.paths, attempts, n, r)
      ensures calls == LoopCalls(invoice, amount, attempts, if r.Ok? then n + 1 else n)
      ensures activePayments == AfterPaths(old(activePayments), id, r.Ok? || AnyDispatched(attempts[..n]))
    {
      var lastError := None;
      calls := [];
      for i := 0 to |invoice.paths|
        invariant forall j :: 0 <= j < i ==> !Stops(invoice.paths[j], attempts[j])
        invariant lastError == if i == 0 then None else Some(PathError(attempts[i - 1]))
        invariant calls == LoopCalls(invoice, amount, attempts, i)
        invariant activePayments == AfterPaths(old(activePayments), id, AnyDispatched(attempts[..i]))
      {
        var outcome, made := TryPath(id, i, amount, invoice, attempts[i]);
        calls := calls + made;
        AfterPathsTwice(old(activePayments), id, AnyDispatched(attempts[..i]), Dispatches(attempts[i]));
        AnyDispatchedNext(attempts, i);
        if outcome.Ok? || outcome.error.GetChannelInfo? {
          return i, outcome, calls;
        }
        lastError := Some(outcome.error);
      }
      return |invoice.paths|, Err(if lastError.Some? then lastError.value else PaymentError), calls;
    }

    /** Pays along the first path that works; `attempts` is how LND behaves on each, were it tried. */
    method PayInvoice(id: PaymentId, amount: u64, invoice: Invoice, attempts: seq<Attempt>)
      returns (r: Result<nat, OfferError>, calls: seq<LndCall>)
      requires |attempts| == |invoice.paths| && AllWellBehaved(attempts)
      modifies this`activePayments
      ensures IsOutcome(invoice.paths, attempts, FirstStop(invoice.paths, attempts), r)
      ensures calls == LoopCalls(invoice, amount, attempts, PathsTried(invoice.paths, attempts))
      ensures InOrder(Queried(calls), PathsTried(invoice.paths, attempts)) && SamePayments(calls, invoice, amount)
      ensures activePayments == MapAfter(old(activePayments), id, invoice.paths, attempts)
    {
      var n;
      n, r, calls := TryPaths(id, amount, invoice, attempts);
      StopsFirstAt(invoice.paths, attempts, n);
      LoopCallsInOrder(invoice, amount, attempts, PathsTried(invoice.paths, attempts));
      if r.Err? && r.error.GetChannelInfo? {
        return;
      }
      AfterPathsTwice(old(activePayments), id, r.Ok? || AnyDispatched(attempts[..n]), false);
      RemoveActivePayment(id);
    }
  }
}
