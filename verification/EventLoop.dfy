/**
 The onion-messenger event loop of src/onion_messenger.rs: producers feed a bounded channel, one
 consumer takes the events off it and drives the onion messenger and the rate limiter.
 */
module EventLoop {
  import opened Common
  import opened RateLimit
  import opened LimiterRuns

  datatype ConsumerError = OnionMessengerFailure | PeerProducerExit | IncomingMessageProducerExit

  datatype Event =
    | PeerConnected(peer: PublicKey, onionSupport: bool)
    | PeerDisconnected(peer: PublicKey)
    | IncomingMessage(peer: PublicKey, message: nat)
    | SendOutgoing
    | ProducerExit(error: ConsumerError)

  /** A call of the onion messenger; `at` is the limiter's last clock reading, kept as history. */
  datatype Call =
    | ConnectPeer(peer: PublicKey, onionSupport: bool, accepted: bool)
    | DisconnectPeer(peer: PublicKey)
    | HandleMessage(peer: PublicKey, message: nat, at: nat)
    | ProcessPending
    | PollPeers(peers: set<PublicKey>)  // next_onion_message_for_peer, once for each

  /** An event taken off the channel, with what the world answers while it is handled. */
  datatype Turn = Turn(event: Event, accepted: bool, checkAt: nat, updateAt: nat)

  // ---- The consumer ----

  datatype Consumer = Consumer(limiter: Limiter, calls: seq<Call>, failed: bool)

  function QueryOf(turn: Turn): Op
    requires turn.event.IncomingMessage?
  {
    Query(turn.event.peer, turn.checkAt, turn.updateAt)
  }

  /** The messenger refuses the peer it is told of, and the consumer gives up. */
  predicate Refuses(turn: Turn) {
    turn.event.PeerConnected? && !turn.accepted
  }

  /** What a turn asks of the limiter. */
  function OpsOf(turn: Turn): seq<Op> {
    match turn.event
    case PeerConnected(p, _) => if turn.accepted then [Connect(p)] else []
    case PeerDisconnected(p) => [Disconnect(p)]
    case IncomingMessage(_, _) => [QueryOf(turn)]
    case SendOutgoing => []
    case ProducerExit(_) => []
  }

  /** What a turn asks of the messenger, given the limiter. */
  function CallsOf(l: Limiter, turn: Turn): seq<Call> {
    match turn.event
    case PeerConnected(p, support) => [ConnectPeer(p, support, turn.accepted)]
    case PeerDisconnected(p) => [DisconnectPeer(p)]
    case IncomingMessage(p, message) =>
      if Grants(l, QueryOf(turn), p) then [HandleMessage(p, message, Stamp(l, QueryOf(turn)))] else []
    case SendOutgoing => [ProcessPending, PollPeers(Online(l))]
    case ProducerExit(_) => []
  }

  /** One turn of consume_messenger_events. */
  function Handle(c: Consumer, turn: Turn): Consumer {
    Consumer(Run(c.limiter, OpsOf(turn)), c.calls + CallsOf(c.limiter, turn), Refuses(turn))
  }

  /** The consumer after these turns; it takes no more once the messenger has failed it. */
  function Consume(l: Limiter, turns: seq<Turn>): Consumer {
    if turns == [] then Consumer(l, [], false) else
      var c := Consume(l, turns[..|turns| - 1]);
      if c.failed then c else Handle(c, turns[|turns| - 1])
  }

  /** The consumer fails exactly if the messenger refuses a peer in one of its turns. */
  lemma {:induction false} FailsIffRefused(l: Limiter, turns: seq<Turn>)
    ensures Consume(l, turns).failed <==> exists i :: 0 <= i < |turns| && Refuses(turns[i])
  {
    if turns == [] {
    } else {
      var n := |turns| - 1;
      FailsIffRefused(l, turns[..n]);
      assert forall i :: 0 <= i < n ==> turns[..n][i] == turns[i];
      assert Refuses(turns[n]) ==> exists i :: 0 <= i < |turns| && Refuses(turns[i]);
    }
  }

  function WithoutExits(turns: seq<Turn>): seq<Turn> {
    if turns == [] then [] else
      var turn := turns[|turns| - 1];
      WithoutExits(turns[..|turns| - 1]) + if turn.event.ProducerExit? then [] else [turn]
  }

  /** What producers say of their exits leaves no trace: without those events everything is the same. */
  lemma {:induction false} ExitsLeaveNoTrace(l: Limiter, turns: seq<Turn>)
    ensures Consume(l, turns) == Consume(l, WithoutExits(turns))
  {
    if turns == [] {
    } else {
      var before, turn := turns[..|turns| - 1], turns[|turns| - 1];
      ExitsLeaveNoTrace(l, before);
      if turn.event.ProducerExit? {
        assert WithoutExits(turns) == WithoutExits(before);
        assert Consume(l, before).calls + [] == Consume(l, before).calls;
      } else {
        assert WithoutExits(turns)[..|WithoutExits(before)|] == WithoutExits(before);
      }
    }
  }

  /** Everything asked of the limiter. */
  function LimiterOps(l: Limiter, turns: seq<Turn>): seq<Op> {
    if turns == [] then [] else
      var before := turns[..|turns| - 1];
      LimiterOps(l, before) + if Consume(l, before).failed then [] else OpsOf(turns[|turns| - 1])
  }

  lemma {:induction false} LimiterFollows(l: Limiter, turns: seq<Turn>)
    ensures Consume(l, turns).limiter == Run(l, LimiterOps(l, turns))
  {
    if turns == [] {
    } else {
      var before := turns[..|turns| - 1];
      LimiterFollows(l, before);
      RunAppend(l, LimiterOps(l, before), OpsOf(turns[|turns| - 1]));
      if Consume(l, before).failed {
        assert LimiterOps(l, turns) == LimiterOps(l, before);
      }
    }
  }

  /** handle_onion_message calls for `p` at a clock reading in `[from, to)`. */
  function HandledIn(calls: seq<Call>, p: PublicKey, from: int, to: int): nat {
    if calls == [] then 0 else
      var call := calls[|calls| - 1];
      HandledIn(calls[..|calls| - 1], p, from, to) +
      if call.HandleMessage? && call.peer == p && from <= call.at < to then 1 else 0
  }

  lemma {:induction false} HandledInAppend(calls: seq<Call>, more: seq<Call>, p: PublicKey, from: int, to: int)
    ensures HandledIn(calls + more, p, from, to) == HandledIn(calls, p, from, to) + HandledIn(more, p, from, to)
  {
    if more == [] {
      assert calls + more == calls;
    } else {
      HandledInAppend(calls, more[..|more| - 1], p, from, to);
      assert (calls + more)[..|calls + more| - 1] == calls + more[..|more| - 1];
    }
  }

  lemma HandledInTurn(l: Limiter, turn: Turn, p: PublicKey, from: int, to: int)
    ensures HandledIn(CallsOf(l, turn), p, from, to) == GrantsIn(l, OpsOf(turn), p, from, to)
  {
    if turn.event.SendOutgoing? {
      assert CallsOf(l, turn) == [ProcessPending] + [PollPeers(Online(l))];
      HandledInAppend([ProcessPending], [PollPeers(Online(l))], p, from, to);
    } else if turn.event.IncomingMessage? {
      assert Run(l, OpsOf(turn)[..0]) == l;
    }
  }

  lemma {:induction false} HandledAreGrants(l: Limiter, turns: seq<Turn>, p: PublicKey, from: int, to: int)
    ensures HandledIn(Consume(l, turns).calls, p, from, to) == GrantsIn(l, LimiterOps(l, turns), p, from, to)
  {
    if turns == [] {
    } else {
      var before, turn := turns[..|turns| - 1], turns[|turns| - 1];
      var c, ops := Consume(l, before), LimiterOps(l, before);
      HandledAreGrants(l, before, p, from, to);
      if c.failed {
        assert LimiterOps(l, turns) == ops;
      } else {
        LimiterFollows(l, before);
        HandledInAppend(c.calls, CallsOf(c.limiter, turn), p, from, to);
        HandledInTurn(c.limiter, turn, p, from, to);
        GrantsInAppend(l, ops, OpsOf(turn), p, from, to);
      }
    }
  }

  lemma GrantsBoundHandled(l: Limiter, ops: seq<Op>, handled: nat, p: PublicKey, from: int, k: nat)
    requires FullBuckets(l) && Ordered(l, ops)
    requires handled == GrantsIn(l, ops, p, from, from + k * l.callFrequency)
    ensures handled <= (k + 1) * l.callCount
  {
    SlidingWindowBound(l, ops, p, from, k);
  }

  /** However events arrive, no peer gets more messages handled than the limiter's window bound. */
  lemma HandledWindowBound(l: Limiter, turns: seq<Turn>, p: PublicKey, from: int, k: nat)
    requires FullBuckets(l) && Ordered(l, LimiterOps(l, turns))
    ensures HandledIn(Consume(l, turns).calls, p, from, from + k * l.callFrequency) <= (k + 1) * l.callCount
  {
    var to := from + k * l.callFrequency;
    HandledAreGrants(l, turns, p, from, to);
    GrantsBoundHandled(l, LimiterOps(l, turns), HandledIn(Consume(l, turns).calls, p, from, to), p, from, k);
  }

  /** The messages handed to the messenger, in order. */
  function Handled(calls: seq<Call>): seq<(PublicKey, nat)> {
    if calls == [] then [] else
      var call := calls[|calls| - 1];
      Handled(calls[..|calls| - 1]) + if call.HandleMessage? then [(call.peer, call.message)] else []
  }

  lemma {:induction false} HandledAppend(calls: seq<Call>, more: seq<Call>)
    ensures Handled(calls + more) == Handled(calls) + Handled(more)
  {
    if more == [] {
      assert calls + more == calls;
    } else {
      HandledAppend(calls, more[..|more| - 1]);
      assert (calls + more)[..|calls + more| - 1] == calls + more[..|more| - 1];
    }
  }

  /** The incoming messages a limiter that sees the same run grants, in order of arrival. */
  function Granted(l: Limiter, turns: seq<Turn>): seq<(PublicKey, nat)> {
    if turns == [] then [] else
      var before, turn := turns[..|turns| - 1], turns[|turns| - 1];
      Granted(l, before) +
      if !Consume(l, before).failed && turn.event.IncomingMessage? &&
         Grants(Run(l, LimiterOps(l, before)), QueryOf(turn), turn.event.peer)
      then [(turn.event.peer, turn.event.message)] else []
  }

  lemma HandledTurn(l: Limiter, turn: Turn)
    ensures Handled(CallsOf(l, turn)) ==
            if turn.event.IncomingMessage? && Grants(l, QueryOf(turn), turn.event.peer)
            then [(turn.event.peer, turn.event.message)] else []
  {
    if turn.event.SendOutgoing? {
      assert CallsOf(l, turn) == [ProcessPending] + [PollPeers(Online(l))];
      HandledAppend([ProcessPending], [PollPeers(Online(l))]);
    }
  }

  lemma {:induction false} HandlesExactlyTheGranted(l: Limiter, turns: seq<Turn>)
    ensures Handled(Consume(l, turns).calls) == Granted(l, turns)
  {
    if turns == [] {
    } else {
      var before, turn := turns[..|turns| - 1], turns[|turns| - 1];
      var c := Consume(l, before);
      HandlesExactlyTheGranted(l, before);
      LimiterFollows(l, before);
      if !c.failed {
        HandledAppend(c.calls, CallsOf(c.limiter, turn));
        HandledTurn(c.limiter, turn);
      }
    }
  }

  // ---- What the messenger is told ----

  /** What a call of the messenger tells it of; asking it to process what is pending tells it nothing. */
  function Tells(call: Call): Option<Event> {
    match call
    case ConnectPeer(p, support, _) => Some(PeerConnected(p, support))
    case DisconnectPeer(p) => Some(PeerDisconnected(p))
    case HandleMessage(p, message, _) => Some(IncomingMessage(p, message))
    case ProcessPending => None
    case PollPeers(_) => Some(SendOutgoing)
  }

  function Told(calls: seq<Call>): seq<Event> {
    if calls == [] then [] else
      var event := Tells(calls[|calls| - 1]);
      Told(calls[..|calls| - 1]) + if event.Some? then [event.value] else []
  }

  lemma {:induction false} ToldAppend(calls: seq<Call>, more: seq<Call>, all: seq<Call>)
    requires all == calls + more
    ensures Told(all) == Told(calls) + Told(more)
  {
    if more == [] {
      assert all == calls;
    } else {
      ToldAppend(calls, more[..|more| - 1], all[..|all| - 1]);
    }
  }

  /** The event is the messenger's business: neither an exit of a producer nor a message over the limit. */
  predicate Passes(l: Limiter, turn: Turn) {
    && !turn.event.ProducerExit?
    && (turn.event.IncomingMessage? ==> Grants(l, QueryOf(turn), turn.event.peer))
  }

  /** The events that pass, up to and including the peer the messenger refuses. */
  function Passed(l: Limiter, turns: seq<Turn>): seq<Event> {
    if turns == [] then [] else
      var before, turn := turns[..|turns| - 1], turns[|turns| - 1];
      Passed(l, before) +
      if (forall i :: 0 <= i < |before| ==> !Refuses(before[i])) && Passes(Run(l, LimiterOps(l, before)), turn)
      then [turn.event] else []
  }

  lemma ToldTurn(l: Limiter, turn: Turn)
    ensures Told(CallsOf(l, turn)) == if Passes(l, turn) then [turn.event] else []
  {
    if turn.event.SendOutgoing? {
      assert CallsOf(l, turn) == [ProcessPending] + [PollPeers(Online(l))];
      ToldAppend([ProcessPending], [PollPeers(Online(l))], CallsOf(l, turn));
    }
  }

  /**
   The messenger is told of every event the consumer takes, as it is and in the order they were
   taken, but for exits of producers and messages over the limit.
   */
  lemma {:induction false} MessengerIsTold(l: Limiter, turns: seq<Turn>)
    ensures Told(Consume(l, turns).calls) == Passed(l, turns)
  {
    if turns == [] {
    } else {
      var before, turn := turns[..|turns| - 1], turns[|turns| - 1];
      var c := Consume(l, before);
      MessengerIsTold(l, before);
      FailsIffRefused(l, before);
      LimiterFollows(l, before);
      if !c.failed {
        ToldAppend(c.calls, CallsOf(c.limiter, turn), Consume(l, turns).calls);
        ToldTurn(c.limiter, turn);
      }
    }
  }

  /** Every poll comes directly after the messenger was asked to process what is pending, and nothing else does. */
  predicate PollsPaired(calls: seq<Call>) {
    && (forall i :: 0 <= i < |calls| && calls[i].PollPeers? ==> i > 0 && calls[i - 1].ProcessPending?)
    && (forall i :: 0 <= i < |calls| && calls[i].ProcessPending? ==> i + 1 < |calls| && calls[i + 1].PollPeers?)
  }

  lemma PairedAppend(calls: seq<Call>, more: seq<Call>)
    requires PollsPaired(calls) && PollsPaired(more)
    ensures PollsPaired(calls + more)
  {
    var all := calls + more;
    forall i | 0 <= i < |all| && all[i].PollPeers? ensures i > 0 && all[i - 1].ProcessPending? {
      assert i >= |calls| ==> all[i] == more[i - |calls|];
    }
    forall i | 0 <= i < |all| && all[i].ProcessPending? ensures i + 1 < |all| && all[i + 1].PollPeers? {
      assert i >= |calls| ==> all[i] == more[i - |calls|];
    }
  }

  lemma {:induction false} ProcessesBeforePolls(l: Limiter, turns: seq<Turn>)
    ensures PollsPaired(Consume(l, turns).calls)
  {
    if turns == [] {
    } else {
      var c, turn := Consume(l, turns[..|turns| - 1]), turns[|turns| - 1];
      ProcessesBeforePolls(l, turns[..|turns| - 1]);
      PairedAppend(c.calls, CallsOf(c.limiter, turn));
    }
  }

  // ---- Limiter and messenger in step ----

  /** The peers the messenger takes to be connected after these calls. */
  function MessengerPeers(calls: seq<Call>): set<PublicKey> {
    if calls == [] then {} else
      var peers, call := MessengerPeers(calls[..|calls| - 1]), calls[|calls| - 1];
      if call.ConnectPeer? && call.accepted then peers + {call.peer}
      else if call.DisconnectPeer? then peers - {call.peer}
      else peers
  }

  /** What a turn does to a set of connected peers. */
  function PeersAfter(peers: set<PublicKey>, turn: Turn): set<PublicKey> {
    if turn.event.PeerConnected? && turn.accepted then peers + {turn.event.peer}
    else if turn.event.PeerDisconnected? then peers - {turn.event.peer}
    else peers
  }

  lemma MessengerPeersTurn(calls: seq<Call>, l: Limiter, turn: Turn)
    ensures MessengerPeers(calls + CallsOf(l, turn)) == PeersAfter(MessengerPeers(calls), turn)
  {
    var all := calls + CallsOf(l, turn);
    if turn.event.SendOutgoing? {
      assert all[..|calls| + 1] == calls + [ProcessPending];
      assert (calls + [ProcessPending])[..|calls|] == calls;
    } else if |CallsOf(l, turn)| == 1 {
      assert all[..|calls|] == calls;
    } else {
      assert all == calls;
    }
  }

  lemma OnlineTurn(l: Limiter, turn: Turn)
    ensures Online(Run(l, OpsOf(turn))) == PeersAfter(Online(l), turn)
  {
    if OpsOf(turn) != [] {
      RunOne(l, OpsOf(turn)[0]);
    }
  }

  // ---- The whole loop ----

  datatype Producer = Startup | Reconnection | PeerEvents | IncomingMessages | OutgoingTicks

  datatype Sent = Sent(who: Producer, event: Event)

  datatype Status = Starting | Running | ReturnedOk | ReturnedErr

  datatype Config = Config(startup: seq<(PublicKey, bool)>, callCount: u8, callFrequency: nat, now: nat)

  /** Where a producer is in its code. */
  datatype Stage =
    | Resubscribing      // before the select around the message subscription
    | Subscribing        // asking LND for its stream, whether or not shutdown has fired
    | AtSelect           // in the select that looks at shutdown first
    | Holding            // past it, with something to send
    | Leaving            // has said that its stream failed
    | Asking             // for the list of peers, after a reconnection
    | Listing(left: nat) // sending it

  /**
   `stages` has the producers that still hold a sender. `fired` says whether the shutdown signal
   has fired. `sent`, `taken` and `turns` are history.
   */
  datatype Loop = Loop(
    status: Status, fired: bool, stages: map<Producer, Stage>, queue: seq<Sent>, consumer: Consumer,
    sent: seq<Sent>, taken: seq<Sent>, turns: seq<Turn>)

  const FirstStages: map<Producer, Stage> :=
    map[Reconnection := AtSelect, PeerEvents := Subscribing, IncomingMessages := Resubscribing, OutgoingTicks := AtSelect]

  function StartupKeys(startup: seq<(PublicKey, bool)>): seq<PublicKey> {
    seq(|startup|, i requires 0 <= i < |startup| => startup[i].0)
  }

  function FirstLimiter(cfg: Config): Limiter {
    New(StartupKeys(cfg.startup), cfg.callCount, cfg.callFrequency, cfg.now)
  }

  function Begin(cfg: Config): Loop {
    Loop(Starting, false, map[], [], Consumer(FirstLimiter(cfg), [], false), [], [], [])
  }

  function Capacity(cfg: Config): nat {
    |cfg.startup| + 1
  }

  function StartupEvent(cfg: Config, i: nat): Sent
    requires i < |cfg.startup|
  {
    Sent(Startup, PeerConnected(cfg.startup[i].0, cfg.startup[i].1))
  }

  datatype Move =
    | Resubscribe      // gets to the message subscription, unless shutdown has fired
    | Subscribed
    | SubscribeFails   // with an error that is not retried
    | Select           // leaves its select, for shutdown if that has fired
    | Leave
    | Listed(n: nat)
    | ListFails

  /** What a move comes to: a new stage, or the sender dropped, with or without firing shutdown. */
  datatype Progress = Stays | Reaches(stage: Stage) | Ends(fires: bool)

  /** `notifying` if the peer subscription is being retried, which is what wakes the reconnection listener. */
  function ProgressOf(who: Producer, stage: Stage, move: Move, fired: bool, notifying: bool): Progress {
    match move
    case Resubscribe =>
      if !stage.Resubscribing? then Stays else if fired then Ends(false) else Reaches(Subscribing)
    case Subscribed => if stage.Subscribing? then Reaches(AtSelect) else Stays
    case SubscribeFails => if stage.Subscribing? then Ends(who.PeerEvents?) else Stays
    case Select =>
      if !stage.AtSelect? then Stays
      else if fired then Ends(false)
      else if !who.Reconnection? then Reaches(Holding)
      else if notifying then Reaches(Asking)
      else Stays
    case Leave => if stage.Leaving? then Ends(true) else Stays
    case Listed(n) => if stage.Asking? then Reaches(if n == 0 then AtSelect else Listing(n)) else Stays
    case ListFails => if stage.Asking? then Ends(true) else Stays
  }

  /** The stage a producer is at once it has sent `event`, if that is what it sends at this one. */
  function AfterSend(who: Producer, stage: Stage, event: Event): Option<Stage> {
    match who
    case PeerEvents =>
      if !stage.Holding? then None
      else if event.PeerConnected? || event.PeerDisconnected? then Some(AtSelect)
      else if event == ProducerExit(PeerProducerExit) then Some(Leaving)
      else None
    case IncomingMessages =>
      if !stage.Holding? then None
      else if event.IncomingMessage? then Some(AtSelect)
      else if event == ProducerExit(IncomingMessageProducerExit) then Some(Resubscribing)
      else None
    case OutgoingTicks => if stage.Holding? && event.SendOutgoing? then Some(AtSelect) else None
    case Reconnection =>
      if stage.Listing? && event.PeerConnected?
      then Some(if stage.left <= 1 then AtSelect else Listing(stage.left - 1)) else None
    case Startup => None
  }

  datatype Action =
    | SendStartup                            // the next startup peer
    | Spawn                                  // producers and consumer take over
    | Send(who: Producer, event: Event)
    | Move(who: Producer, move: Move)        // a producer goes on without sending
    | Trigger                                // shutdown is asked for from outside
    | Take(accepted: bool, checkAt: nat, updateAt: nat)
    | SeeClosed                              // recv returns None

  function Enqueue(s: Loop, m: Sent): Loop {
    s.(queue := s.queue + [m], sent := s.sent + [m])
  }

  function Moved(s: Loop, who: Producer, move: Move): Loop
    requires who in s.stages
  {
    var notifying := PeerEvents in s.stages && s.stages[PeerEvents].Subscribing?;
    match ProgressOf(who, s.stages[who], move, s.fired, notifying)
    case Stays => s
    case Reaches(stage) => s.(stages := s.stages[who := stage])
    case Ends(fires) => s.(stages := s.stages - {who}, fired := s.fired || fires)
  }

  predicate CanSend(cfg: Config, s: Loop, who: Producer, event: Event) {
    && s.status.Running? && |s.queue| < Capacity(cfg)
    && who in s.stages && AfterSend(who, s.stages[who], event).Some?
  }

  /** An action that has to wait (a full or empty channel) or is out of place changes nothing. */
  function Next(cfg: Config, s: Loop, a: Action): Loop {
    match a
    case SendStartup =>
      if s.status.Starting? && |s.sent| < |cfg.startup| && |s.queue| < Capacity(cfg)
      then Enqueue(s, StartupEvent(cfg, |s.sent|)) else s
    case Spawn =>
      if s.status.Starting? && |s.sent| == |cfg.startup|
      then s.(status := Running, stages := FirstStages) else s
    case Send(who, event) =>
      if CanSend(cfg, s, who, event)
      then Enqueue(s, Sent(who, event)).(stages := s.stages[who := AfterSend(who, s.stages[who], event).value])
      else s
    case Move(who, move) => if s.status.Running? && who in s.stages then Moved(s, who, move) else s
    case Trigger => s.(fired := true)
    case Take(accepted, checkAt, updateAt) =>
      if s.status.Running? && s.queue != [] then
        var turn := Turn(s.queue[0].event, accepted, checkAt, updateAt);
        var c := Handle(s.consumer, turn);
        s.(queue := s.queue[1..], taken := s.taken + [s.queue[0]], turns := s.turns + [turn],
           consumer := c, status := if c.failed then ReturnedErr else Running)
      else s
    case SeeClosed =>
      if s.status.Running? && s.queue == [] && s.stages == map[] then s.(status := ReturnedOk) else s
  }

  function After(cfg: Config, actions: seq<Action>): Loop {
    if actions == [] then Begin(cfg)
    else Next(cfg, After(cfg, actions[..|actions| - 1]), actions[|actions| - 1])
  }

  /** Startup peers whose PeerConnected has not been handled yet. */
  function Awaited(cfg: Config, handled: nat): set<PublicKey> {
    set i | handled <= i < |cfg.startup| :: cfg.startup[i].0
  }

  /** Turns completed; the one that failed the consumer is not. */
  function Completed(s: Loop): nat {
    if s.consumer.failed && |s.turns| > 0 then |s.turns| - 1 else |s.turns|
  }

  predicate ChannelInv(cfg: Config, s: Loop) {
    && s.sent == s.taken + s.queue
    && |s.queue| <= Capacity(cfg)
    && (s.status.Starting? ==> s.taken == [] && |s.sent| <= |cfg.startup|)
    && (!s.status.Starting? ==> |s.sent| >= |cfg.startup|)
    && (forall i :: 0 <= i < |s.sent| && i < |cfg.startup| ==> s.sent[i] == StartupEvent(cfg, i))
    && (s.status.ReturnedOk? ==> s.queue == [] && s.stages == map[])
  }

  predicate ConsumerInv(cfg: Config, s: Loop) {
    && |s.turns| == |s.taken|
    && (forall i :: 0 <= i < |s.turns| ==> s.turns[i].event == s.taken[i].event)
    && s.consumer == Consume(FirstLimiter(cfg), s.turns)
    && (s.status.ReturnedErr? <==> s.consumer.failed)
    && (s.consumer.failed ==> s.turns != [] && Refuses(s.turns[|s.turns| - 1]))
  }

  predicate InStepInv(cfg: Config, s: Loop) {
    Online(s.consumer.limiter) == MessengerPeers(s.consumer.calls) + Awaited(cfg, Completed(s))
  }

  lemma Quiet(cfg: Config, s: Loop, a: Action)
    requires a.Move? || a.Trigger?
    ensures var s' := Next(cfg, s, a);
      s' == s.(stages := s'.stages, fired := s'.fired) && (!s.status.Running? ==> s'.stages == s.stages)
  {
  }

  predicate Takes(s: Loop, a: Action) {
    a.Take? && s.status.Running? && s.queue != []
  }

  lemma OnlyTakes(cfg: Config, s: Loop, a: Action)
    requires !Takes(s, a)
    ensures var s' := Next(cfg, s, a);
      && s'.consumer == s.consumer && s'.turns == s.turns && s'.taken == s.taken
      && (s'.status.ReturnedErr? <==> s.status.ReturnedErr?)
  {
  }

  lemma ChannelTake(cfg: Config, s: Loop, a: Action)
    requires ChannelInv(cfg, s) && Takes(s, a)
    ensures ChannelInv(cfg, Next(cfg, s, a))
  {
  }

  lemma ChannelSend(cfg: Config, s: Loop, a: Action)
    requires ChannelInv(cfg, s) && a.Send?
    ensures ChannelInv(cfg, Next(cfg, s, a))
  {
  }

  lemma ChannelNext(cfg: Config, s: Loop, a: Action)
    requires ChannelInv(cfg, s)
    ensures ChannelInv(cfg, Next(cfg, s, a))
  {
    if a.Move? || a.Trigger? {
      Quiet(cfg, s, a);
    } else if Takes(s, a) {
      ChannelTake(cfg, s, a);
    } else if a.Send? {
      ChannelSend(cfg, s, a);
    }
  }

  lemma ConsumerTake(cfg: Config, s: Loop, a: Action)
    requires ConsumerInv(cfg, s) && Takes(s, a)
    ensures ConsumerInv(cfg, Next(cfg, s, a))
  {
    var s' := Next(cfg, s, a);
    assert s'.turns[..|s.turns|] == s.turns;
  }

  lemma ConsumerNext(cfg: Config, s: Loop, a: Action)
    requires ConsumerInv(cfg, s)
    ensures ConsumerInv(cfg, Next(cfg, s, a))
  {
    if Takes(s, a) {
      ConsumerTake(cfg, s, a);
    } else {
      OnlyTakes(cfg, s, a);
    }
  }

  lemma AwaitedNext(cfg: Config, n: nat)
    requires n < |cfg.startup|
    ensures Awaited(cfg, n) == Awaited(cfg, n + 1) + {cfg.startup[n].0}
  {
  }

  lemma InStepTurn(cfg: Config, c: Consumer, turn: Turn, n: nat)
    requires Online(c.limiter) == MessengerPeers(c.calls) + Awaited(cfg, n)
    requires n < |cfg.startup| ==> turn.event == StartupEvent(cfg, n).event
    ensures var c' := Handle(c, turn);
      Online(c'.limiter) == MessengerPeers(c'.calls) + Awaited(cfg, if c'.failed then n else n + 1)
  {
    MessengerPeersTurn(c.calls, c.limiter, turn);
    OnlineTurn(c.limiter, turn);
    if n < |cfg.startup| {
      AwaitedNext(cfg, n);
    } else {
      assert Awaited(cfg, n) == {} == Awaited(cfg, n + 1);
    }
  }

  lemma InStepTake(cfg: Config, s: Loop, a: Action)
    requires Takes(s, a) && InStepInv(cfg, s) && !s.consumer.failed
    requires |s.turns| < |cfg.startup| ==> s.queue[0].event == StartupEvent(cfg, |s.turns|).event
    ensures InStepInv(cfg, Next(cfg, s, a))
  {
    InStepTurn(cfg, s.consumer, Turn(s.queue[0].event, a.accepted, a.checkAt, a.updateAt), |s.turns|);
  }

  lemma InStepNext(cfg: Config, s: Loop, a: Action)
    requires ChannelInv(cfg, s) && ConsumerInv(cfg, s) && InStepInv(cfg, s)
    ensures InStepInv(cfg, Next(cfg, s, a))
  {
    if Takes(s, a) {
      assert s.sent[|s.taken|] == s.queue[0];
      InStepTake(cfg, s, a);
    } else {
      OnlyTakes(cfg, s, a);
    }
  }

  /** Every poll so far was of exactly the peers the messenger had been told of by then. */
  predicate PollsInv(calls: seq<Call>) {
    forall i :: 0 <= i < |calls| && calls[i].PollPeers? ==> calls[i].peers == MessengerPeers(calls[..i])
  }

  lemma PollsTurn(c: Consumer, turn: Turn)
    requires PollsInv(c.calls)
    requires turn.event.SendOutgoing? ==> Online(c.limiter) == MessengerPeers(c.calls)
    ensures PollsInv(Handle(c, turn).calls)
  {
    var calls := Handle(c, turn).calls;
    forall i | 0 <= i < |calls| && calls[i].PollPeers? ensures calls[i].peers == MessengerPeers(calls[..i]) {
      if i < |c.calls| {
        assert calls[..i] == c.calls[..i];
      } else {
        assert calls[..i] == c.calls + [ProcessPending];
        assert (c.calls + [ProcessPending])[..|c.calls|] == c.calls;
      }
    }
  }

  lemma PollsNext(cfg: Config, s: Loop, a: Action)
    requires ChannelInv(cfg, s) && ConsumerInv(cfg, s) && InStepInv(cfg, s) && PollsInv(s.consumer.calls)
    ensures PollsInv(Next(cfg, s, a).consumer.calls)
  {
    if Takes(s, a) {
      assert s.sent[|s.taken|] == s.queue[0];
      if s.queue[0].event.SendOutgoing? {
        assert |cfg.startup| <= |s.taken|;
        assert Awaited(cfg, |s.taken|) == {};
      }
      PollsTurn(s.consumer, Turn(s.queue[0].event, a.accepted, a.checkAt, a.updateAt));
    } else {
      OnlyTakes(cfg, s, a);
    }
  }

  lemma {:induction false} LoopInvariants(cfg: Config, actions: seq<Action>)
    ensures ChannelInv(cfg, After(cfg, actions))
    ensures ConsumerInv(cfg, After(cfg, actions))
    ensures InStepInv(cfg, After(cfg, actions))
  {
    if actions == [] {
      var keys := StartupKeys(cfg.startup);
      forall p ensures p in Online(FirstLimiter(cfg)) <==> p in Awaited(cfg, 0) {
        if p in Awaited(cfg, 0) {
          var i :| 0 <= i < |cfg.startup| && p == cfg.startup[i].0;
          assert keys[i] == p;
        }
      }
    } else {
      var before, a := actions[..|actions| - 1], actions[|actions| - 1];
      LoopInvariants(cfg, before);
      ChannelNext(cfg, After(cfg, before), a);
      ConsumerNext(cfg, After(cfg, before), a);
      InStepNext(cfg, After(cfg, before), a);
    }
  }

  /** Outgoing messages are collected for exactly the peers the messenger takes to be connected. */
  lemma {:induction false} PollsExactlyTheConnected(cfg: Config, actions: seq<Action>)
    ensures PollsInv(After(cfg, actions).consumer.calls)
  {
    if actions == [] {
    } else {
      var before := actions[..|actions| - 1];
      PollsExactlyTheConnected(cfg, before);
      LoopInvariants(cfg, before);
      PollsNext(cfg, After(cfg, before), actions[|actions| - 1]);
    }
  }

  /**
   The limiter's online peers are those connected by the messenger's account and the startup
   peers still to be announced to it; just the former once the startup events are drained.
   */
  lemma InStep(cfg: Config, actions: seq<Action>)
    ensures var s := After(cfg, actions);
      && Online(s.consumer.limiter) == MessengerPeers(s.consumer.calls) + Awaited(cfg, Completed(s))
      && (|cfg.startup| <= Completed(s) ==> Online(s.consumer.limiter) == MessengerPeers(s.consumer.calls))
  {
    LoopInvariants(cfg, actions);
    var s := After(cfg, actions);
    if |cfg.startup| <= Completed(s) {
      assert Awaited(cfg, Completed(s)) == {};
    }
  }

  /** What an action adds to the channel, if it goes through. */
  function Adds(cfg: Config, s: Loop, a: Action): seq<Sent> {
    if |s.queue| >= Capacity(cfg) then []
    else if a.SendStartup? && s.status.Starting? && |s.sent| < |cfg.startup| then [StartupEvent(cfg, |s.sent|)]
    else if a.Send? && CanSend(cfg, s, a.who, a.event) then [Sent(a.who, a.event)]
    else []
  }

  lemma AddsNext(cfg: Config, s: Loop, a: Action)
    ensures Next(cfg, s, a).sent == s.sent + Adds(cfg, s, a)
  {
  }

  /** What a producer sends with this action, if the action is its own and goes through. */
  function EmittedBy(cfg: Config, s: Loop, a: Action, who: Producer): seq<Event> {
    var adds := Adds(cfg, s, a);
    if adds != [] && adds[0].who == who then [adds[0].event] else []
  }

  /** What a producer has sent, in the order it sent it. */
  function Emitted(cfg: Config, actions: seq<Action>, who: Producer): seq<Event> {
    if actions == [] then [] else
      var before := actions[..|actions| - 1];
      Emitted(cfg, before, who) + EmittedBy(cfg, After(cfg, before), actions[|actions| - 1], who)
  }

  function From(sent: seq<Sent>, who: Producer): seq<Event> {
    if sent == [] then [] else
      var last := sent[|sent| - 1];
      From(sent[..|sent| - 1], who) + if last.who == who then [last.event] else []
  }

  lemma {:induction false} FromConcat(sent: seq<Sent>, more: seq<Sent>, who: Producer)
    ensures From(sent + more, who) == From(sent, who) + From(more, who)
  {
    if more == [] {
      assert sent + more == sent;
    } else {
      FromConcat(sent, more[..|more| - 1], who);
      assert (sent + more)[..|sent + more| - 1] == sent + more[..|more| - 1];
    }
  }

  lemma FromAppend(sent: seq<Sent>, m: Sent, who: Producer)
    ensures From(sent + [m], who) == From(sent, who) + if m.who == who then [m.event] else []
  {
  }

  lemma SentNext(cfg: Config, s: Loop, a: Action, who: Producer)
    ensures From(Next(cfg, s, a).sent, who) == From(s.sent, who) + EmittedBy(cfg, s, a, who)
  {
    AddsNext(cfg, s, a);
    var adds := Adds(cfg, s, a);
    if adds == [] {
      assert s.sent + adds == s.sent;
    } else {
      assert adds == [adds[0]];
      FromAppend(s.sent, adds[0], who);
    }
  }

  lemma {:induction false} SentByProducer(cfg: Config, actions: seq<Action>, who: Producer)
    ensures From(After(cfg, actions).sent, who) == Emitted(cfg, actions, who)
  {
    if actions == [] {
    } else {
      var before := actions[..|actions| - 1];
      SentByProducer(cfg, before, who);
      SentNext(cfg, After(cfg, before), actions[|actions| - 1], who);
    }
  }

  /**
   The channel loses, repeats and reorders nothing, whoever sent it; it never holds more than its
   capacity, and the sends before the consumer exists never have to wait for room.
   */
  lemma ChannelConservation(cfg: Config, actions: seq<Action>, who: Producer)
    ensures var s := After(cfg, actions);
      && s.sent == s.taken + s.queue
      && From(s.taken + s.queue, who) == Emitted(cfg, actions, who)
      && |s.queue| <= |cfg.startup| + 1
      && (forall w, event :: CanSend(cfg, s, w, event) ==> |s.queue| <= |cfg.startup|)
      && (s.status.Starting? && |s.sent| < |cfg.startup| ==> |Next(cfg, s, SendStartup).sent| == |s.sent| + 1)
  {
    LoopInvariants(cfg, actions);
    SentByProducer(cfg, actions, who);
  }

  /**
   The consumer has returned an error exactly if the messenger has refused a peer. It has returned
   Ok only if every producer has dropped its sender and everything they sent has been handled,
   and, as long as it runs, is about to exactly then.
   */
  ghost predicate ReturnsInTime(cfg: Config, s: Loop) {
    && (s.status.ReturnedErr? <==> exists i :: 0 <= i < |s.turns| && Refuses(s.turns[i]))
    && (s.status.ReturnedOk? ==> s.stages == map[] && s.taken == s.sent && !s.consumer.failed)
    && (s.status.Running? ==>
          (Next(cfg, s, SeeClosed).status.ReturnedOk? <==> s.stages == map[] && s.taken == s.sent))
  }

  lemma ReturnsInTimeIf(cfg: Config, s: Loop)
    requires ChannelInv(cfg, s) && ConsumerInv(cfg, s)
    ensures ReturnsInTime(cfg, s)
  {
    FailsIffRefused(FirstLimiter(cfg), s.turns);
  }

  lemma ConsumerReturns(cfg: Config, actions: seq<Action>)
    ensures ReturnsInTime(cfg, After(cfg, actions))
  {
    LoopInvariants(cfg, actions);
    ReturnsInTimeIf(cfg, After(cfg, actions));
  }

  lemma AfterLast(cfg: Config, actions: seq<Action>, a: Action)
    ensures After(cfg, actions + [a]) == Next(cfg, After(cfg, actions), a)
  {
  }

  /** Over the whole life of the loop, what the messenger handles is what the limiter grants, in order. */
  lemma LoopHandlesTheGranted(cfg: Config, actions: seq<Action>)
    ensures Handled(After(cfg, actions).consumer.calls) == Granted(FirstLimiter(cfg), After(cfg, actions).turns)
  {
    LoopInvariants(cfg, actions);
    HandlesExactlyTheGranted(FirstLimiter(cfg), After(cfg, actions).turns);
  }

  lemma FirstWindowBound(cfg: Config, turns: seq<Turn>, p: PublicKey, from: int, k: nat)
    requires Ordered(FirstLimiter(cfg), LimiterOps(FirstLimiter(cfg), turns))
    ensures HandledIn(Consume(FirstLimiter(cfg), turns).calls, p, from, from + k * cfg.callFrequency) <=
            (k + 1) * cfg.callCount
  {
    NewIsFull(StartupKeys(cfg.startup), cfg.callCount, cfg.callFrequency, cfg.now);
    HandledWindowBound(FirstLimiter(cfg), turns, p, from, k);
  }

  /** Over the whole life of the loop, every peer is held to the limiter's window bound. */
  lemma LoopWindowBound(cfg: Config, actions: seq<Action>, p: PublicKey, from: int, k: nat)
    requires Ordered(FirstLimiter(cfg), LimiterOps(FirstLimiter(cfg), After(cfg, actions).turns))
    ensures HandledIn(After(cfg, actions).consumer.calls, p, from, from + k * cfg.callFrequency) <=
            (k + 1) * cfg.callCount
  {
    LoopInvariants(cfg, actions);
    FirstWindowBound(cfg, After(cfg, actions).turns, p, from, k);
  }

  /** The answers the world gives in these actions are not refusals. */
  predicate AllAccepted(actions: seq<Action>) {
    forall i :: 0 <= i < |actions| && actions[i].Take? ==> actions[i].accepted
  }

  /** Less than one call frequency has passed since the start. */
  predicate Early(cfg: Config, at: nat) {
    cfg.callFrequency > 0 && at < cfg.now + cfg.callFrequency
  }

  predicate AllEarly(cfg: Config, actions: seq<Action>) {
    forall i :: 0 <= i < |actions| && actions[i].Take? ==> Early(cfg, actions[i].checkAt)
  }

  lemma TurnsNext(cfg: Config, s: Loop, a: Action)
    ensures var s' := Next(cfg, s, a);
      if Takes(s, a) then s'.turns == s.turns + [Turn(s.queue[0].event, a.accepted, a.checkAt, a.updateAt)]
      else s'.turns == s.turns
  {
    if !Takes(s, a) {
      OnlyTakes(cfg, s, a);
    }
  }

  /** The turns the consumer has had carry the answers of the actions they were taken with. */
  lemma {:induction false} AnswersGiven(cfg: Config, actions: seq<Action>, i: nat) returns (j: nat)
    requires i < |After(cfg, actions).turns|
    ensures j < |actions| && actions[j].Take?
    ensures var turn := After(cfg, actions).turns[i];
      turn.accepted == actions[j].accepted && turn.checkAt == actions[j].checkAt && turn.updateAt == actions[j].updateAt
  {
    var before := actions[..|actions| - 1];
    if i < |After(cfg, before).turns| {
      TurnsNext(cfg, After(cfg, before), actions[|actions| - 1]);
      j := AnswersGiven(cfg, before, i);
    } else {
      TurnsNext(cfg, After(cfg, before), actions[|actions| - 1]);
      j := |actions| - 1;
    }
  }

  /** A loop in which the messenger refuses nobody never returns an error. */
  lemma NeverFailsUnrefused(cfg: Config, actions: seq<Action>)
    requires AllAccepted(actions)
    ensures !After(cfg, actions).status.ReturnedErr?
  {
    ConsumerReturns(cfg, actions);
    var turns := After(cfg, actions).turns;
    if i :| 0 <= i < |turns| && Refuses(turns[i]) {
      var j := AnswersGiven(cfg, actions, i);
      assert false;
    }
  }

  lemma {:induction false} OpsAreEarly(cfg: Config, l: Limiter, turns: seq<Turn>)
    requires forall i :: 0 <= i < |turns| ==> Early(cfg, turns[i].checkAt)
    ensures forall op :: op in LimiterOps(l, turns) && op.Query? ==> Early(cfg, op.checkAt)
  {
    if turns == [] {
    } else {
      var before := turns[..|turns| - 1];
      assert forall i :: 0 <= i < |before| ==> before[i] == turns[i];
      OpsAreEarly(cfg, l, before);
    }
  }

  /** In its first period, counted from its start, a loop handles at most one allocation of messages for each peer. */
  lemma LoopFirstPeriod(cfg: Config, actions: seq<Action>, p: PublicKey, from: int, to: int)
    requires AllEarly(cfg, actions)
    ensures HandledIn(After(cfg, actions).consumer.calls, p, from, to) <= cfg.callCount
    ensures After(cfg, actions).consumer.limiter.lastUpdate == cfg.now
  {
    var l, turns := FirstLimiter(cfg), After(cfg, actions).turns;
    LoopInvariants(cfg, actions);
    forall i | 0 <= i < |turns| ensures Early(cfg, turns[i].checkAt) {
      var j := AnswersGiven(cfg, actions, i);
    }
    OpsAreEarly(cfg, l, turns);
    LimiterFollows(l, turns);
    HandledAreGrants(l, turns, p, from, to);
    SomeAreAll(l, LimiterOps(l, turns), p, from, to);
    assert forall i :: 0 <= i < |LimiterOps(l, turns)| ==> LimiterOps(l, turns)[i] in LimiterOps(l, turns);
    FirstPeriod(StartupKeys(cfg.startup), cfg.callCount, cfg.callFrequency, cfg.now, LimiterOps(l, turns), p);
  }

  // ---- The consumer's loop ----

  function AsSet(peers: seq<PublicKey>): set<PublicKey> {
    set p | p in peers
  }

  /** next_onion_message_for_peer for every peer the limiter lists; the peers polled, in order. */
  method PollEach(limiter: TokenLimiter) returns (polled: seq<PublicKey>)
    ensures AsSet(polled) == Online(limiter.State())
    ensures forall i, j :: 0 <= i < j < |polled| ==> polled[i] != polled[j]
  {
    var peers := limiter.Peers();
    polled := [];
    for i := 0 to |peers|
      invariant polled == peers[..i]
    {
      polled := polled + [peers[i]];
    }
  }

  lemma {:induction false} FailedForGood(l: Limiter, turns: seq<Turn>, n: nat)
    requires n <= |turns| && Consume(l, turns[..n]).failed
    ensures Consume(l, turns) == Consume(l, turns[..n])
  {
    if n == |turns| {
      assert turns[..n] == turns;
    } else {
      assert turns[..|turns| - 1][..n] == turns[..n];
      FailedForGood(l, turns[..|turns| - 1], n);
    }
  }

  /** consume_messenger_events on the events received until the channel closed. */
  method ConsumeMessengerEvents(limiter: TokenLimiter, turns: seq<Turn>)
    returns (r: Result<(), ConsumerError>, calls: seq<Call>)
    modifies limiter
    ensures Consumer(limiter.State(), calls, r.Err?) == Consume(old(limiter.State()), turns)
    ensures r.Err? ==> r.error == OnionMessengerFailure
  {
    calls := [];
    for i := 0 to |turns|
      invariant Consumer(limiter.State(), calls, false) == Consume(old(limiter.State()), turns[..i])
    {
      var turn := turns[i];
      assert turns[..i + 1][..i] == turns[..i];
      ghost var l := limiter.State();
      if OpsOf(turn) != [] {
        RunOne(l, OpsOf(turn)[0]);
      }
      match turn.event
      case PeerConnected(p, support) =>
        calls := calls + [ConnectPeer(p, support, turn.accepted)];
        if !turn.accepted {
          FailedForGood(old(limiter.State()), turns, i + 1);
          return Err(OnionMessengerFailure), calls;
        }
        limiter.PeerConnected(p);
      case PeerDisconnected(p) =>
        calls := calls + [DisconnectPeer(p)];
        limiter.PeerDisconnected(p);
      case IncomingMessage(p, message) =>
        var at := if Elapsed(turn.checkAt, limiter.lastUpdate) >= limiter.callFrequency then turn.updateAt else turn.checkAt;
        var granted := limiter.QueryPeer(p, turn.checkAt, turn.updateAt);
        if granted {
          calls := calls + [HandleMessage(p, message, at)];
        }
      case SendOutgoing =>
        calls := calls + [ProcessPending];
        var polled := PollEach(limiter);
        calls := calls + [PollPeers(AsSet(polled))];
      case ProducerExit(_) =>
    }
    assert turns[..|turns|] == turns;
    return Ok(()), calls;
  }
}
