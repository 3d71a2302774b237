/**
 What each producer of src/onion_messenger.rs does over a run of the loop: what it sends, when
 it may, how often, and what its exit means for the rest of the run.
 */
module ProducerRuns {
  import opened Common
  import opened EventLoop
  import opened LoopShutdown

  // ---- What a producer sends ----

  /** The events a producer has to send. */
  predicate Own(who: Producer, event: Event) {
    match who
    case Startup => event.PeerConnected?
    case Reconnection => event.PeerConnected?
    case PeerEvents => event.PeerConnected? || event.PeerDisconnected? || event == ProducerExit(PeerProducerExit)
    case IncomingMessages => event.IncomingMessage? || event == ProducerExit(IncomingMessageProducerExit)
    case OutgoingTicks => event == SendOutgoing
  }

  /** Wherever a producer can send, it can send any of its own events, and nothing else. */
  lemma CanSendIff(cfg: Config, s: Loop, who: Producer, event: Event)
    requires StagesInv(s)
    ensures CanSend(cfg, s, who, event) <==>
      && s.status.Running? && |s.queue| <= |cfg.startup| && Own(who, event)
      && Budget(s.stages, who) > 0
  {
  }

  lemma {:induction false} SendsItsOwn(cfg: Config, actions: seq<Action>, who: Producer, i: nat)
    requires i < |Emitted(cfg, actions, who)|
    ensures Own(who, Emitted(cfg, actions, who)[i])
  {
    var before := actions[..|actions| - 1];
    if i < |Emitted(cfg, before, who)| {
      SendsItsOwn(cfg, before, who, i);
    }
  }

  /** The peers connected at startup are announced as they are, in order, and all of them before anything else. */
  predicate Announced(cfg: Config, s: Loop, announced: seq<Event>) {
    && |announced| == (if s.status.Starting? then |s.sent| else |cfg.startup|)
    && |announced| <= |cfg.startup| && |announced| <= |s.sent|
    && (forall i :: 0 <= i < |announced| ==>
          && s.sent[i] == Sent(Startup, announced[i])
          && announced[i] == PeerConnected(cfg.startup[i].0, cfg.startup[i].1))
  }

  lemma AnnouncedNext(cfg: Config, s: Loop, a: Action, announced: seq<Event>)
    requires ChannelInv(cfg, s) && Announced(cfg, s, announced)
    ensures Announced(cfg, Next(cfg, s, a), announced + EmittedBy(cfg, s, a, Startup))
  {
    AddsNext(cfg, s, a);
  }

  lemma {:induction false} StartupAnnounced(cfg: Config, actions: seq<Action>)
    ensures Announced(cfg, After(cfg, actions), Emitted(cfg, actions, Startup))
  {
    if actions == [] {
    } else {
      var before := actions[..|actions| - 1];
      StartupAnnounced(cfg, before);
      LoopInvariants(cfg, before);
      AnnouncedNext(cfg, After(cfg, before), actions[|actions| - 1], Emitted(cfg, before, Startup));
    }
  }

  // ---- When it may ----

  /** The producer has yet to subscribe, or to subscribe again. */
  predicate Unsubscribed(s: Loop, who: Producer) {
    || s.status.Starting?
    || who !in s.stages
    || s.stages[who].Resubscribing?
    || s.stages[who].Subscribing?
  }

  lemma UnsubscribedNext(cfg: Config, s: Loop, a: Action, who: Producer)
    requires who.PeerEvents? || who.IncomingMessages?
    requires Unsubscribed(s, who) && a != Move(who, Subscribed)
    ensures Unsubscribed(Next(cfg, s, a), who) && EmittedBy(cfg, s, a, who) == []
  {
  }

  /** A producer that has yet to subscribe sends nothing before it has. */
  lemma {:induction false} SilentUntilSubscribed(cfg: Config, actions: seq<Action>, longer: seq<Action>, who: Producer)
    requires who.PeerEvents? || who.IncomingMessages?
    requires actions <= longer && Unsubscribed(After(cfg, actions), who)
    requires forall i :: |actions| <= i < |longer| ==> longer[i] != Move(who, Subscribed)
    ensures Emitted(cfg, longer, who) == Emitted(cfg, actions, who)
    ensures Unsubscribed(After(cfg, longer), who)
  {
    if longer == actions {
    } else {
      var before := longer[..|longer| - 1];
      SilentUntilSubscribed(cfg, actions, before, who);
      UnsubscribedNext(cfg, After(cfg, before), longer[|longer| - 1], who);
    }
  }

  /** Nothing is sent of peers, or of messages, before the first subscription. */
  lemma SubscribesFirst(cfg: Config, actions: seq<Action>, who: Producer)
    requires who.PeerEvents? || who.IncomingMessages?
    requires Emitted(cfg, actions, who) != []
    ensures exists i :: 0 <= i < |actions| && actions[i] == Move(who, Subscribed)
  {
    if forall i :: 0 <= i < |actions| ==> actions[i] != Move(who, Subscribed) {
      SilentUntilSubscribed(cfg, [], actions, who);
    }
  }

  predicate MessagesExit(cfg: Config, s: Loop, a: Action) {
    var sent := EmittedBy(cfg, s, a, IncomingMessages);
    sent != [] && sent[0].ProducerExit?
  }

  lemma ExitUnsubscribes(cfg: Config, s: Loop, a: Action)
    requires MessagesExit(cfg, s, a)
    ensures Unsubscribed(Next(cfg, s, a), IncomingMessages)
  {
  }

  /** And nothing of messages between an exit of their producer and its next subscription. */
  lemma ResubscribesAfterExit(cfg: Config, actions: seq<Action>, longer: seq<Action>)
    requires actions != [] && actions <= longer
    requires MessagesExit(cfg, After(cfg, actions[..|actions| - 1]), actions[|actions| - 1])
    requires forall i :: |actions| <= i < |longer| ==> longer[i] != Move(IncomingMessages, Subscribed)
    ensures Emitted(cfg, longer, IncomingMessages) == Emitted(cfg, actions, IncomingMessages)
  {
    ExitUnsubscribes(cfg, After(cfg, actions[..|actions| - 1]), actions[|actions| - 1]);
    SilentUntilSubscribed(cfg, actions, longer, IncomingMessages);
  }

  /** The peer subscription is in place, and the reconnection listener has nothing left to send. */
  predicate Reconnected(s: Loop) {
    && !s.status.Starting?
    && (PeerEvents in s.stages ==> !s.stages[PeerEvents].Subscribing?)
    && (Reconnection in s.stages ==> s.stages[Reconnection].AtSelect?)
  }

  lemma ReconnectedNext(cfg: Config, s: Loop, a: Action)
    requires Reconnected(s) && StagesInv(s)
    ensures Reconnected(Next(cfg, s, a)) && EmittedBy(cfg, s, a, Reconnection) == []
  {
  }

  /** The listener is woken by nothing but retries of the peer subscription: once that is in place it sends no more. */
  lemma {:induction false} NoListOnceReconnected(cfg: Config, actions: seq<Action>, longer: seq<Action>)
    requires actions <= longer && Reconnected(After(cfg, actions))
    ensures Emitted(cfg, longer, Reconnection) == Emitted(cfg, actions, Reconnection)
    ensures Reconnected(After(cfg, longer))
  {
    if longer == actions {
    } else {
      var before := longer[..|longer| - 1];
      NoListOnceReconnected(cfg, actions, before);
      StagesRun(cfg, before);
      ReconnectedNext(cfg, After(cfg, before), longer[|longer| - 1]);
    }
  }

  // ---- How often ----

  /** The producer's select completes with something other than shutdown. */
  predicate PicksUp(s: Loop, a: Action, who: Producer) {
    a == Move(who, Select) && s.status.Running? && !s.fired && who in s.stages && s.stages[who].AtSelect?
  }

  function PickedUp(cfg: Config, actions: seq<Action>, who: Producer): nat {
    if actions == [] then 0 else
      var before := actions[..|actions| - 1];
      PickedUp(cfg, before, who) + if PicksUp(After(cfg, before), actions[|actions| - 1], who) then 1 else 0
  }

  predicate InHand(s: Loop, who: Producer) {
    who in s.stages && s.stages[who].Holding?
  }

  lemma PicksUpNext(cfg: Config, s: Loop, a: Action, who: Producer)
    requires StagesInv(s) && !who.Startup? && !who.Reconnection? && (s.status.Starting? ==> s.stages == map[])
    ensures |EmittedBy(cfg, s, a, who)| + (if InHand(Next(cfg, s, a), who) then 1 else 0) ==
            (if InHand(s, who) then 1 else 0) + if PicksUp(s, a, who) then 1 else 0
  {
  }

  lemma {:induction false} NoStagesYet(cfg: Config, actions: seq<Action>)
    ensures After(cfg, actions).status.Starting? ==> After(cfg, actions).stages == map[]
  {
    if actions == [] {
    } else {
      NoStagesYet(cfg, actions[..|actions| - 1]);
    }
  }

  /** What a producer picks up it sends, exactly once, unless it still has it in hand. */
  lemma {:induction false} SendsWhatItPicksUp(cfg: Config, actions: seq<Action>, who: Producer)
    requires !who.Startup? && !who.Reconnection?
    ensures |Emitted(cfg, actions, who)| + (if InHand(After(cfg, actions), who) then 1 else 0) ==
            PickedUp(cfg, actions, who)
  {
    if actions == [] {
    } else {
      var before := actions[..|actions| - 1];
      SendsWhatItPicksUp(cfg, before, who);
      StagesRun(cfg, before);
      NoStagesYet(cfg, before);
      PicksUpNext(cfg, After(cfg, before), actions[|actions| - 1], who);
    }
  }

  /** The peers on the list the reconnection listener gets with this action. */
  function ListedBy(s: Loop, a: Action): nat {
    if a.Move? && a.who.Reconnection? && a.move.Listed? && s.status.Running? && Asked(s) then a.move.n else 0
  }

  function ListedIn(cfg: Config, actions: seq<Action>): nat {
    if actions == [] then 0 else
      var before := actions[..|actions| - 1];
      ListedIn(cfg, before) + ListedBy(After(cfg, before), actions[|actions| - 1])
  }

  lemma ListedNext(cfg: Config, s: Loop, a: Action)
    requires StagesInv(s) && (s.status.Starting? ==> s.stages == map[])
    ensures |EmittedBy(cfg, s, a, Reconnection)| + Budget(Next(cfg, s, a).stages, Reconnection) ==
            Budget(s.stages, Reconnection) + ListedBy(s, a)
  {
  }

  /** After a reconnection every peer on the list is announced, exactly once. */
  lemma {:induction false} ListsSentInFull(cfg: Config, actions: seq<Action>)
    ensures |Emitted(cfg, actions, Reconnection)| + Budget(After(cfg, actions).stages, Reconnection) ==
            ListedIn(cfg, actions)
  {
    if actions == [] {
    } else {
      var before := actions[..|actions| - 1];
      ListsSentInFull(cfg, before);
      StagesRun(cfg, before);
      NoStagesYet(cfg, before);
      ListedNext(cfg, After(cfg, before), actions[|actions| - 1]);
    }
  }

  // ---- Exits ----

  /** An error exit, or a request from outside. */
  predicate Fires(s: Loop, a: Action) {
    || a.Trigger?
    || (s.status.Running? && a.Move? && a.who in s.stages &&
        match s.stages[a.who]
        case Subscribing => a == Move(PeerEvents, SubscribeFails)
        case Leaving => a == Move(PeerEvents, Leave)
        case Asking => a == Move(Reconnection, ListFails)
        case _ => false)
  }

  lemma FiresNext(cfg: Config, s: Loop, a: Action)
    requires StagesInv(s)
    ensures Next(cfg, s, a).fired <==> s.fired || Fires(s, a)
  {
  }

  predicate FiredAt(cfg: Config, actions: seq<Action>, i: nat) {
    i < |actions| && Fires(After(cfg, actions[..i]), actions[i])
  }

  lemma FiredAtBefore(cfg: Config, actions: seq<Action>, i: nat)
    requires i < |actions| - 1
    ensures FiredAt(cfg, actions[..|actions| - 1], i) == FiredAt(cfg, actions, i)
  {
    assert actions[..|actions| - 1][..i] == actions[..i];
  }

  /** Shutdown has fired exactly if it was asked for, or a producer other than that of messages failed. */
  lemma {:induction false} FiredIff(cfg: Config, actions: seq<Action>)
    ensures After(cfg, actions).fired <==> exists i: nat :: FiredAt(cfg, actions, i)
  {
    if actions == [] {
    } else {
      var n := |actions| - 1;
      FiredIff(cfg, actions[..n]);
      forall i: nat | i < n ensures FiredAt(cfg, actions[..n], i) == FiredAt(cfg, actions, i) {
        FiredAtBefore(cfg, actions, i);
      }
      StagesRun(cfg, actions[..n]);
      FiresNext(cfg, After(cfg, actions[..n]), actions[n]);
      assert FiredAt(cfg, actions, n) == Fires(After(cfg, actions[..n]), actions[n]);
    }
  }

  /** The peer producer has gone, firing shutdown, or is about to. */
  predicate PeersOver(s: Loop) {
    !s.status.Starting? && if PeerEvents in s.stages then s.stages[PeerEvents].Leaving? else s.fired
  }

  lemma PeersOverNext(cfg: Config, s: Loop, a: Action)
    requires PeersOver(s)
    ensures PeersOver(Next(cfg, s, a)) && EmittedBy(cfg, s, a, PeerEvents) == []
    ensures PeerEvents in s.stages && PeerEvents !in Next(cfg, s, a).stages ==> a == Move(PeerEvents, Leave)
  {
  }

  lemma PeerExits(cfg: Config, s: Loop, a: Action)
    requires StagesInv(s) && (s.status.Starting? ==> s.stages == map[])
    ensures var sent := EmittedBy(cfg, s, a, PeerEvents);
      sent != [] && sent[0].ProducerExit? ==> PeersOver(Next(cfg, s, a))
  {
  }

  /**
   What the peer producer says of its exit it says last: from then on, in every continuation, it
   sends nothing more, and has gone, having fired shutdown, or has just that left to do.
   */
  lemma {:induction false} PeerExitIsLast(cfg: Config, actions: seq<Action>, i: nat)
    requires i < |Emitted(cfg, actions, PeerEvents)| && Emitted(cfg, actions, PeerEvents)[i].ProducerExit?
    ensures i == |Emitted(cfg, actions, PeerEvents)| - 1 && PeersOver(After(cfg, actions))
  {
    var before, a := actions[..|actions| - 1], actions[|actions| - 1];
    StagesRun(cfg, before);
    NoStagesYet(cfg, before);
    if i < |Emitted(cfg, before, PeerEvents)| {
      PeerExitIsLast(cfg, before, i);
      PeersOverNext(cfg, After(cfg, before), a);
    } else {
      PeerExits(cfg, After(cfg, before), a);
    }
  }
}
