# LNDK in Dafny

LNDK connects LND to LDK's onion messenger so that an LND node can use BOLT 12 offers. This
project models the four parts of it that are state machines of their own and proves what they
guarantee over whole runs.

* **Rate limiter** (`RateLimit.dfy`, `LimiterRuns.dfy`). `TokenLimiter` is the object with its
  fields updated in place; `Limiter` is its value, and runs are sequences of connects, disconnects
  and queries. Clock readings are parameters: a query reads the clock once to see whether a period
  is over and, only then, again to date the new one. A grant is dated by the last reading made for it.
* **Payments** (`Amounts.dfy`, `Payments.dfy`, `PaymentRuns.dfy`, `PaymentRequests.dfy`,
  `PaymentFates.dfy`, `OfferHandler.dfy`, `PayInvoiceRuns.dfy`). Tasks and incoming messages share the map of active
  payments and the outbox. Every lock-held block is one step of a transition system, all steps
  interleave freely, and every sequence of steps is a run. `PaymentRuns` says what every run keeps,
  `PaymentRequests` what calls tasks go back to and what they ask for, `PaymentFates` what can still become of a payment at any point of one. `OfferHandler` is the
  object with those blocks as methods and the path loop of `pay_invoice`, and `PayInvoiceRuns` ties
  that loop to the transition system.
* **Event loop** (`EventLoop.dfy`, `LoopShutdown.dfy`, `ProducerRuns.dfy`, `Producers.dfy`). Producers feed a bounded
  channel, one consumer drives the messenger and the limiter. Every producer is at a stage of its
  code, and the shutdown signal is part of the state; `LoopShutdown` says how the loop ends, and
  `ProducerRuns` what each producer does over a run of it.
* **Loops** (`Retry.dfy`, `PathSelection.dfy`, `FeatureBits.dfy`). Bounded retry, backoff, choice of
  introduction nodes, feature bits as bytes.

## What is assumed

* LND, the network and LDK answer as they like: their answers are choices of the next step or
  parameters. Verification of an invoice or of an invoice error is such an answer.
* The clock does not go back between readings that are made (`LimiterRuns.Ordered`); only the
  window bounds need it.
* Payment ids are 32 random bytes and are never drawn twice in a run (`Payments.FreshIds`).
  `RefusalLeavesNoTrace` does without it.
* `query_routes` does not succeed with an empty list of routes: the code indexes the first one.
* Firing a timer and what is then done under the lock are one step, as the former touches nothing shared.

## Where the code departs from its comments

* The reminder on `pay_invoice` asks for the id to be removed on every error. The `?` on the scid
  lookup (src/offers/handler.rs:267-268) returns without. `NoLeakedPayments` says exactly which ids
  are in the map, that exit included; `LookupFailureLeaks` and `LookupFailureReachable` say that it
  leaks and does happen. The id is safe exactly if no path of the invoice is introduced by a scid:
  `AlwaysReleasedIffNoScid` for the call, `StrandedIffScid` and `NoScidReleases` for every run.
* The log for an invoice error says that the payment is abandoned. The entry is; whether the payment
  is depends on where its task was. `StruckPayment` says exactly when it can still be made, and
  `AbandonedYetPaid` gives a run in which it is.
* A path is moved on from not only when its payment failed, but also when the stream of payment
  updates breaks off, so that two payments of one invoice can be under way.
  `OneInFlightIffNoneLost` says for which answers of LND that is avoided, `OneInFlightIffOnePath` for
  which invoices it always is.
* `consume_messenger_events` is expected to finish if any producer exits. It finishes if shutdown
  fires (`ShutdownEnds`), which the exit of any producer but one does (`ExitsFireShutdown`). The
  one is a message subscription that LND refuses for good (src/onion_messenger.rs:624-627): it fires
  nothing and says nothing, and the loop runs on without incoming messages (`DeafLoop`,
  `DeafLoopReachable`). `HowManyMore` says from every point exactly how many more events can be
  taken, `RunsOnIff` when there is no limit. The `ProducerExit` events themselves do nothing
  (`ExitsLeaveNoTrace`, `RunsOnAfterProducerExit`).
* Producers are said to send an exit event on all exits; on shutdown they send none (`Produce`).
* Offer paths are described as at most three channels. The loop collects min(4, qualifying) peers,
  so more than three exactly if more than three qualify, and the offer takes three
  (`SelectIntroNodes`, `OfferPaths`).
* Feature bits are described as 0 to 128; bit 128 is dropped (`FeatureBitsToLeBytes`).

## Model

| member | source | states |
|---|---|---|
| `RateLimit.TokenLimiter.constructor` | src/rate_limit.rs:61-80 | every peer given is online with a full allocation |
| `RateLimit.TokenLimiter.Update` | src/rate_limit.rs:93-104 | offline peers are dropped, all others refilled, the period dated |
| `RateLimit.TokenLimiter.Hit` | src/rate_limit.rs:109-121 | a known peer with calls left is granted one and charged for it, nobody else is |
| `RateLimit.TokenLimiter.PeerConnected` | src/rate_limit.rs:128-133 | a tracked peer comes online with what it had, a new one with a full allocation |
| `RateLimit.TokenLimiter.PeerDisconnected` | src/rate_limit.rs:137-141 | a tracked peer goes offline and stays tracked |
| `RateLimit.TokenLimiter.Peers` | src/rate_limit.rs:144-151 | exactly the online peers, each once |
| `RateLimit.TokenLimiter.QueryPeer` | src/rate_limit.rs:156-162 | refreshes first if the period is over, then hits |
| `LimiterRuns.TokensConserved` | src/rate_limit.rs:41-44 | over every run, calls granted this period and calls left make up one allocation, whatever the peer's connects and disconnects |
| `LimiterRuns.SlidingWindowBound` | src/rate_limit.rs:31-39 | over every run, in any half-open window of k periods a peer is granted at most k + 1 allocations |
| `LimiterRuns.WindowBoundAttained` | src/rate_limit.rs:86-104 | for every allocation and every k there is a run that attains the bound of k + 1 allocations |
| `LimiterRuns.FirstPeriod` | src/rate_limit.rs:72-90 | no query within one call frequency of the limiter's creation refreshes anything, so a peer gets one allocation in all, and the first one after it does |
| `LimiterRuns.ReconnectNeverPays` | src/rate_limit.rs:41-44 | leave out any of a peer's disconnects and at every point the period is the same and the peer has been granted no less, in the period and in all |
| `LimiterRuns.AnswerFromHistory` | src/rate_limit.rs:106-162 | over every run, the answer to a query by history alone: granted if and only if the peer is connected, for the first of a period, or was connected at some point of the period and has been granted less than an allocation in it |
| `LimiterRuns.TrackedBySight` | src/rate_limit.rs:41-44 | over every run, a peer is tracked if and only if it was connected at some point of the current period, and online if and only if the last heard of it is that it connected |
| `LimiterRuns.PeerIsolation` | src/rate_limit.rs:109-141 | connects and disconnects of others change no answer to a peer |
| `Amounts.ValidateAmount` | src/offers/parse.rs:32-79 | when an amount is accepted, which it is, and that it is never below a bitcoin offer nor zero for an offer with an amount |
| `PaymentRuns.InvRun` | src/offers/handler.rs:158-314 | the invariant that ties entries to the tasks that own them holds in every reachable state |
| `PaymentRuns.Lifecycle` | src/offers/handler.rs:39-47 | from any point of a run on, states only advance, invoices are written once, created means no invoice, and a removed id stays removed |
| `PaymentRuns.StateTellsProgress` | src/offers/handler.rs:223-228 | a live entry is received before its owner's first dispatch and dispatched while it tracks one |
| `PaymentRuns.NoLeakedPayments` | src/offers/handler.rs:155-157 | an id is in the map if and only if a task holds it and no verified invoice error has struck it; the task is unique; AlreadyProcessing never happens |
| `PaymentRuns.ReturnReleases` | src/offers/handler.rs:194-221 | every return of a task but the failed scid lookup has released its id |
| `PaymentRuns.LookupFailureLeaks` | src/offers/handler.rs:264-271 | after a failed scid lookup the entry stays for good unless a verified invoice error strikes it |
| `PaymentFates.OpenExactlyWhen` | src/offers/handler.rs:158-314 | at every point of every run: some continuation has a task obtain an invoice, deliver it, fail to get one, pay, run out of paths, or return with its id stranded in the map, if and only if its kind, its place in the code, its entry and the paths left say so |
| `PaymentFates.StruckPayment` | src/offers/handler.rs:336-349 | once a verified invoice error has struck a live entry its owner can still pay if and only if it is a pay_offer that has its invoice and a path left, or one under way; it never obtains an invoice it did not have, and strands nothing |
| `PaymentFates.StruckBeforeInvoice` | src/offers/handler.rs:336-349 | a task struck before it had its invoice never has a route queried, in any continuation |
| `PaymentFates.AbandonedYetPaid` | src/offers/handler.rs:336-349 | a run that pays after an invoice error struck the payment |
| `PaymentFates.StrandedIffScid` | src/offers/handler.rs:264-271 | from the moment pay_offer has its invoice and a live entry, some continuation strands the id if and only if a path is introduced by a scid |
| `PaymentFates.NoScidReleases` | src/offers/handler.rs:233-235 | a task that has returned and whose invoice has no path introduced by a scid has its id out of the map |
| `PaymentFates.LookupFailureReachable` | src/offers/handler.rs:264-271 | a run of pay_offer that leaks its id |
| `PaymentRuns.Provenance` | src/offers/handler.rs:209-231 | an invoice a task has in hand is the first that verified for its id and arrived while the id was in the map |
| `PaymentRuns.RoutesOnlyTheFirstInvoice` | src/offers/handler.rs:252-262 | every route query of a pay_offer is for the payment hash, and a path, of that first invoice |
| `PaymentRuns.StaleInvoiceIgnored` | src/offers/handler.rs:478-493 | once an id has left the map no invoice for it changes anything, at any later point |
| `PaymentRuns.OutboxConserved` | src/offers/handler.rs:519-521 | released batches followed by pending messages are exactly the messages pushed, in order |
| `PaymentRuns.RefusalLeavesNoTrace` | src/offers/handler.rs:173-184 | cut all steps of a task refused with AlreadyProcessing out of a run and map, messages, queries and other tasks are the same, even if ids repeat |
| `PaymentRuns.PathsInOrder` | src/offers/handler.rs:251-304 | under every interleaving a task queries its paths 0, 1, 2, ... each at most once; one that paid tried exactly those up to the one that worked, one that failed all, one stopped by a lookup those before it |
| `PaymentRequests.BegunBy` | src/offers/handler.rs:140-170 | every task goes back to the first call for it in the run, and has that call's id, kind, validated amount and, for pay_invoice, invoice; it failed to build exactly if the call did |
| `PaymentRequests.TasksAreTheCalls` | src/offers/lnd_requests.rs:59-100 | there is a task if and only if there was a call for it whose amount passes validation |
| `PaymentRequests.ReturnsBecause` | src/offers/handler.rs:186-221 | a task that has returned did so by the step its result names |
| `PaymentRequests.RefusedIff` | src/offers/handler.rs:173-184 | a task is refused with AlreadyProcessing if and only if it came to enter an id that was in the map, even if ids repeat |
| `PaymentRequests.RequestedOnce` | src/offers/handler.rs:199-203 | at every point of every run the invoice requests pushed for an id are exactly one, for the task's amount, if its task has got as far as waiting for the invoice, and none otherwise |
| `PaymentRequests.RespondedOnce` | src/offers/handler.rs:440-450 | the invoice responses pushed are exactly those made, in order |
| `PaymentRequests.RequestAmount` | src/offers/lnd_requests.rs:67-83 | every invoice request, answered or not, goes back to a call of pay_offer or get_invoice and asks for the amount validated for what that call passed, no less than the offer's and positive if the offer states one |
| `PaymentRequests.QueryAmount` | src/offers/client_impls.rs:156-161 | every route query goes back to a call of pay_offer or pay_invoice and hands LND the amount validated for what that call passed, exactly if it is below 2^63, and a negative one otherwise; for pay_invoice the hash and path are of the caller's invoice |
| `PaymentRequests.RequestAndQueryAgree` | src/offers/handler.rs:143-151 | request and route queries of a payment are for the same amount exactly if it is below 2^63 |
| `OfferHandlers.OfferHandler.InsertPayment` | src/offers/handler.rs:173-184 | a new id gets a fresh entry, a known one is refused and untouched |
| `OfferHandlers.OfferHandler.HandleInvoice` | src/offers/handler.rs:461-503 | only the first verified invoice of a live payment is taken; an error is sent back exactly for one that does not verify |
| `OfferHandlers.OfferHandler.HandleInvoiceError` | src/offers/handler.rs:338-349 | a verified error takes the entry out |
| `OfferHandlers.OfferHandler.TryPath` | src/offers/handler.rs:252-308 | one path: aborts on a failed lookup without a call, else makes exactly one query, one send along the first route if there are routes and one track if it was sent; works exactly if sent and settled, and leaves its own error if not |
| `OfferHandlers.OfferHandler.TryPaths` | src/offers/handler.rs:251-309 | the loop stops at the first path that works or cannot be resolved, its calls are those of the paths before it, and of it if it worked, one after the other, and it leaves the last error otherwise |
| `OfferHandlers.OfferHandler.PayInvoice` | src/offers/handler.rs:236-314 | the calls, with one hash and amount, are exactly those of the paths up to the first that works or cannot be resolved; the result and the map are those of that path |
| `OfferHandlers.OncePerPath` | src/offers/lnd_requests.rs:111-144 | among those calls a payment is sent exactly once for each path with routes, and tracked exactly once for each it was sent along, path after path |
| `OfferHandlers.LoopCallsInOrder` | src/offers/handler.rs:251-262 | and paths are queried in order, each once, with one hash and amount |
| `OfferHandlers.FirstStop` | src/offers/handler.rs:251-309 | the least path that works or aborts |
| `OfferHandlers.AlwaysReleasedIffNoScid` | src/offers/handler.rs:233-235 | the id is out of the map after the call, whatever LND does, if and only if it was not in it before or no path is introduced by a scid |
| `OfferHandlers.OneInFlightIffNoneLost` | src/offers/handler.rs:294-303 | no payment is sent before every one sent earlier was seen to fail, if and only if none is sent after one whose update stream broke off unsettled |
| `OfferHandlers.OneInFlightIffOnePath` | src/offers/handler.rs:294-303 | that holds whatever LND does if and only if the invoice has at most one path |
| `OfferHandlers.SettlesFailsOrBreaksOff` | src/offers/client_impls.rs:195-214 | a stream of updates breaks off unsettled if and only if no update in it settles or fails the payment |
| `PayInvoiceRuns.RefinesPayInvoice` | src/offers/handler.rs:236-314 | under every interleaving a task whose steps answer as LND would returns from pay_invoice with the result and the queries of the loop run on its own, its id left in the map exactly if the loop leaves it |
| `OfferHandlers.SendPayment` | src/offers/lnd_requests.rs:111-144 | queries once with the cast amount and sends along the first route, failing with the error of the call that failed |
| `OfferHandlers.Track` | src/offers/client_impls.rs:182-215 | succeeds if and only if a Succeeded update comes before any failure, error or end of the stream |
| `EventLoop.ConsumeMessengerEvents` | src/onion_messenger.rs:857-938 | the loop on the real limiter object does to limiter and messenger what the fold over turns says, and fails only by the messenger |
| `EventLoop.PollEach` | src/onion_messenger.rs:917-926 | every online peer is polled once and nobody else |
| `EventLoop.MessengerIsTold` | src/onion_messenger.rs:876-926 | the messenger is told of exactly the events taken, with the onion support they carry and in the order taken, up to and including a refused peer, but for exits and messages over the limit |
| `EventLoop.ProcessesBeforePolls` | src/onion_messenger.rs:917-926 | every poll comes directly after a request to process what is pending, and every such request before a poll |
| `EventLoop.LimiterFollows` | src/onion_messenger.rs:876-916 | the consumer's limiter is a limiter run of its own on the events' operations |
| `EventLoop.HandledWindowBound` | src/onion_messenger.rs:909-916 | messages handled for a peer keep to the limiter's window bound |
| `EventLoop.HandlesExactlyTheGranted` | src/onion_messenger.rs:909-916 | the messages handled are exactly the granted ones, in order of arrival |
| `EventLoop.InStep` | src/onion_messenger.rs:896-907 | in every reachable state the limiter's online peers are the messenger's peers and the startup peers still to be announced; just the former once startup is drained |
| `EventLoop.PollsExactlyTheConnected` | src/onion_messenger.rs:917-926 | every poll for outgoing messages is of exactly the peers the messenger had been told are connected by then |
| `EventLoop.ChannelConservation` | src/onion_messenger.rs:203-217 | sent is taken then queued, each producer's events in its own order, within capacity; startup sends never wait |
| `EventLoop.ConsumerReturns` | src/onion_messenger.rs:868-938 | in every reachable state: an error has been returned if and only if the messenger refused a peer; Ok only when all senders are gone and all that was sent is handled, and a running consumer is about to return exactly then |
| `EventLoop.FailsIffRefused` | src/onion_messenger.rs:884-895 | a consumer has failed if and only if one of its turns was refused |
| `EventLoop.ExitsLeaveNoTrace` | src/onion_messenger.rs:927-933 | cut every ProducerExit out of the events taken, and limiter, calls of the messenger and failure are the same |
| `LoopShutdown.ExitsFireShutdown` | src/onion_messenger.rs:228-327 | in every reachable state of a running loop a producer that has gone has fired shutdown, unless it is that of incoming messages; Ok is never returned without shutdown |
| `ProducerRuns.FiredIff` | src/onion_messenger.rs:228-327 | shutdown has fired if and only if it was asked for, or the peer subscription or the list of peers failed for good, or the peer producer left after its stream failed |
| `ProducerRuns.PeerExitIsLast` | src/onion_messenger.rs:694-705 | in every run a ProducerExit of the peer producer is the last event it sends, and it has then gone, having fired shutdown, or has only that left to do |
| `ProducerRuns.PeersOverNext` | src/onion_messenger.rs:278-286 | from there it sends nothing and only its leaving, which fires shutdown, moves it |
| `ProducerRuns.SilentUntilSubscribed` | src/onion_messenger.rs:601-642 | a producer that has yet to subscribe, for the first time or again, sends nothing before it has |
| `ProducerRuns.SubscribesFirst` | src/onion_messenger.rs:255-276 | nothing is sent of peers, or of messages, before a subscription |
| `ProducerRuns.ResubscribesAfterExit` | src/onion_messenger.rs:630-642 | after a ProducerExit of the message producer nothing is sent of messages until it has subscribed again |
| `ProducerRuns.NoListOnceReconnected` | src/onion_messenger.rs:559-594 | once the peer subscription is in place and a list being sent is done, the reconnection listener sends nothing more |
| `ProducerRuns.CanSendIff` | src/onion_messenger.rs:669-694 | a producer can send any of its own events, and no others, exactly if it has something in hand and the channel has room |
| `ProducerRuns.SendsItsOwn` | src/onion_messenger.rs:669-694 | in every run each producer sends only its own events |
| `ProducerRuns.StartupAnnounced` | src/onion_messenger.rs:209-217 | the startup peers are announced with their onion support, in order, and all before anything else |
| `ProducerRuns.SendsWhatItPicksUp` | src/onion_messenger.rs:662-710 | what a producer's select picks up it sends exactly once, unless it still has it in hand |
| `ProducerRuns.ListsSentInFull` | src/onion_messenger.rs:571-585 | the peers announced after reconnections, and those still to be announced, are as many as were listed |
| `LoopShutdown.HowManyMore` | src/onion_messenger.rs:330-356 | from every reachable state of a running loop, n more events can be taken if and only if shutdown has not fired, or the list of peers after a reconnection is still awaited, or they are in the channel or in a producer's hands already |
| `LoopShutdown.RunsOnIff` | src/onion_messenger.rs:330-334 | there is no limit to the events still taken if and only if shutdown has not fired, or that list is awaited |
| `LoopShutdown.ShutdownEnds` | src/onion_messenger.rs:330-334 | once shutdown has fired, everything that changes the loop brings it nearer to its return, by a well-founded measure, and until then something can |
| `LoopShutdown.DeafLoop` | src/onion_messenger.rs:611-628 | a message subscription refused for good fires and sends nothing; the loop can go on without limit, and no continuation brings another message or exit of that producer |
| `LoopShutdown.DeafLoopReachable` | src/onion_messenger.rs:601-628 | every loop, whatever its startup peers, can come to that point |
| `LoopShutdown.RunsOnAfterProducerExit` | src/onion_messenger.rs:927-933 | in every reachable state without shutdown, taking a ProducerExit leaves the loop running and able to go on without limit |
| `EventLoop.NeverFailsUnrefused` | src/onion_messenger.rs:884-895 | a loop in which the messenger refuses nobody never returns an error |
| `EventLoop.LoopFirstPeriod` | src/onion_messenger.rs:335-340 | until a clock reading is one call frequency after the start, each peer has at most one allocation of messages handled |
| `EventLoop.LoopWindowBound` | src/onion_messenger.rs:330-356 | the window bound for the whole loop from startup on |
| `EventLoop.LoopHandlesTheGranted` | src/onion_messenger.rs:330-356 | the same for the messages handled |
| `Producers.Produce` | src/onion_messenger.rs:657-710 | goes through wake-ups exactly as long as the source gives, what it sends gets through and shutdown is not seen; emits the filtered image of those in order, then one ProducerExit if the source fails; only its last event can come after shutdown |
| `Producers.TakenFromSource` | src/onion_messenger.rs:657-710 | end to end, under every schedule: what the consumer has taken from a producer, of one subscription, is the filtered image of the beginning of its source, then at most one ProducerExit |
| `Producers.SubscribeWithRetry` | src/onion_messenger.rs:596-648 | turns to the next subscription exactly if the stream of this one gives out and shutdown is not seen; emits the output of one after the other, and in all only the last event can come after shutdown |
| `Producers.TakenFromSubscriptions` | src/onion_messenger.rs:596-648 | end to end over all subscriptions, under every schedule: what the consumer has taken is the output of some in full, then the image of the beginning of the next and at most one ProducerExit |
| `Producers.ImagesRoundTrip` | src/onion_messenger.rs:669-694 | peer items, ticks and parsed messages of type 513 can be recovered from the events: none is lost, changed, repeated or out of order, and nothing else leads to one |
| `Producers.ImagesAreNoExit` | src/onion_messenger.rs:741-793 | no item of a source is emitted as a ProducerExit |
| `Retry.RetryableCodes` | src/grpc.rs:13-18 | exactly the gRPC codes 2, 4, 10 and 14 are retried |
| `Retry.WithMaxAttempts` | src/grpc.rs:70-118 | the first reply not worth retrying among the calls allowed, else the last; at least one call, no overflow of the u8 counter |
| `Retry.ConnectToPeerWithRetry` | src/offers/lnd_requests.rs:496-535 | fails exactly if eleven attempts fail without shutdown, with the last error; makes no attempt after a shutdown; delays double up to a minute, never shrink and sum to at most 243.5 s |
| `Retry.DelayDoubles` | src/offers/lnd_requests.rs:510-512 | half a second, doubled each time, up to a minute |
| `Retry.Backoff` | src/offers/lnd_requests.rs:510-512 | the delay in u64 arithmetic without overflow |
| `PathSelection.QualifiesIff` | src/lnd.rs:214-217 | a peer qualifies if and only if it has feature bit 38 or 39 and a channel that is not ours |
| `PathSelection.PeerQualifies` | src/offers/lnd_requests.rs:308-326 | a peer is taken if and only if it supports onion messages and has a channel other than ours |
| `PathSelection.SelectIntroNodes` | src/offers/lnd_requests.rs:302-329 | exactly the distinct qualifying peers of a prefix, min(4, qualifying peers) of them; it stops short only with four |
| `PathSelection.CreateReplyPaths` | src/offers/lnd_requests.rs:331-365 | one path per peer, or one to ourselves; fails exactly if one of them cannot be built |
| `PathSelection.OfferPaths` | src/offers/lnd_requests.rs:209-225 | the offer has one path, or min(3, qualifying peers), all distinct and all such as can be built; to ourselves if and only if nobody qualifies |
| `FeatureBits.FeatureBitsToLeBytes` | src/lnd.rs:532-541 | decoding the sixteen bytes gives exactly the listed bits in 0..127 |
| `FeatureBits.WithBitValue` | src/lnd.rs:537-537 | setting a bit adds its power of two exactly if it was clear |
| `FeatureBits.DecodeInjective` | src/lnd.rs:540-540 | bytes are determined by their bits, so order and repetition in the list do not show |

## Left out

- gRPC server, command line, TLS, macaroons, configuration, logging: input, output and copying of fields.
- LDK and secp256k1: signing, blinded path and onion construction, invoice verification.
- Parsing of keys, hex and bech32, and what a scid lookup computes; lookups succeed or fail freely.
- Fairness of the scheduler and cancellation of futures; `ShutdownEnds` bounds the steps left, not the time.
- A producer that panics on a malformed key from LND, and what producers do after the consumer has returned.
- `with_infinite_retries`, `check_empty_features`, `lookup_onion_support`: unbounded polling without a local guarantee.
- `create_reply_path_for_outgoing_payments`, `connect_to_peer`, `get_destination`: single searches or branches.
- The onion messages an outgoing poll relays to LND; only which peers are polled is modelled.
- `get_invoice` and `wait_for_invoice` exist as steps of the transition system, not as methods, since other tasks act between their blocks.
- Which peers the reconnection listener finds; how many it sends, and when, is modelled.
- How an invoice is made for an incoming invoice request; only that the response is pushed.
- CLTV deltas, fees and fee limits passed through to LND.
