/**
 How the loop of src/onion_messenger.rs comes to an end: which exits of producers fire the
 shutdown signal, and how many more events can be taken from any point on.
 */
module LoopShutdown {
  import opened Common
  import opened EventLoop

  // ---- Which exits fire shutdown ----

  predicate StageOk(who: Producer, stage: Stage) {
    match who
    case Reconnection => stage.AtSelect? || stage.Asking? || (stage.Listing? && stage.left > 0)
    case PeerEvents => stage.Subscribing? || stage.AtSelect? || stage.Holding? || stage.Leaving?
    case IncomingMessages => stage.Resubscribing? || stage.Subscribing? || stage.AtSelect? || stage.Holding?
    case OutgoingTicks => stage.AtSelect? || stage.Holding?
    case Startup => false
  }

  predicate StagesInv(s: Loop) {
    && (forall who :: who in s.stages ==> StageOk(who, s.stages[who]))
    && (s.status.Running? && !s.fired ==> {Reconnection, PeerEvents, OutgoingTicks} <= s.stages.Keys)
    && (s.status.ReturnedOk? ==> s.fired)
  }

  lemma StagesMoved(s: Loop, who: Producer, move: Move)
    requires StagesInv(s) && s.status.Running? && who in s.stages
    ensures StagesInv(Moved(s, who, move))
  {
  }

  lemma StagesNext(cfg: Config, s: Loop, a: Action)
    requires StagesInv(s)
    ensures StagesInv(Next(cfg, s, a))
  {
    if a.Move? && s.status.Running? && a.who in s.stages {
      StagesMoved(s, a.who, a.move);
    } else if a.SeeClosed? && s.stages == map[] {
      assert Reconnection !in s.stages.Keys;
    }
  }

  lemma {:induction false} StagesRun(cfg: Config, actions: seq<Action>)
    ensures StagesInv(After(cfg, actions))
  {
    if actions == [] {
    } else {
      StagesRun(cfg, actions[..|actions| - 1]);
      StagesNext(cfg, After(cfg, actions[..|actions| - 1]), actions[|actions| - 1]);
    }
  }

  /**
   While the consumer runs, a producer that has gone has fired shutdown, unless it is the one for
   incoming messages; and the consumer never returns Ok without it.
   */
  lemma ExitsFireShutdown(cfg: Config, actions: seq<Action>, who: Producer)
    ensures var s := After(cfg, actions);
      && (s.status.Running? && who !in s.stages && !who.IncomingMessages? && !who.Startup? ==> s.fired)
      && (s.status.ReturnedOk? ==> s.fired)
  {
    StagesRun(cfg, actions);
    assert who.Reconnection? || who.PeerEvents? || who.OutgoingTicks? ==> who in {Reconnection, PeerEvents, OutgoingTicks};
  }

  // ---- How much more can be taken ----

  /** What a producer still sends once shutdown has fired. */
  function Budget(stages: map<Producer, Stage>, who: Producer): nat {
    if who !in stages then 0
    else match stages[who]
      case Holding => 1
      case Listing(left) => left
      case _ => 0
  }

  function Late(stages: map<Producer, Stage>): nat {
    Budget(stages, Reconnection) + Budget(stages, PeerEvents) +
    Budget(stages, IncomingMessages) + Budget(stages, OutgoingTicks)
  }

  /** The reconnection listener has asked for the list of peers, and will send however many there are. */
  predicate Asked(s: Loop) {
    Reconnection in s.stages && s.stages[Reconnection].Asking?
  }

  /** What has been taken and what is sure to come, if shutdown has fired. */
  function Total(s: Loop): nat {
    |s.taken| + |s.queue| + Late(s.stages)
  }

  /** Some continuation of the run takes `n` more events. */
  ghost predicate CanTake(cfg: Config, actions: seq<Action>, n: nat) {
    exists longer :: actions <= longer && |After(cfg, longer).taken| >= |After(cfg, actions).taken| + n
  }

  // ---- No more than that ----

  lemma LateMoved(s: Loop, who: Producer, move: Move)
    requires StagesInv(s) && s.fired && !Asked(s) && who in s.stages
    ensures var s' := Moved(s, who, move); s'.fired && !Asked(s') && Late(s'.stages) <= Late(s.stages)
  {
  }

  lemma LateSend(who: Producer, stages: map<Producer, Stage>, event: Event)
    requires who in stages && StageOk(who, stages[who]) && AfterSend(who, stages[who], event).Some?
    ensures Late(stages[who := AfterSend(who, stages[who], event).value]) + 1 == Late(stages)
  {
  }

  lemma TotalNext(cfg: Config, s: Loop, a: Action)
    requires StagesInv(s) && s.fired && !Asked(s) && !s.status.Starting?
    ensures var s' := Next(cfg, s, a);
      s'.fired && !Asked(s') && !s'.status.Starting? && Total(s') <= Total(s)
  {
    if a.Move? && a.who in s.stages {
      LateMoved(s, a.who, a.move);
    } else if a.Send? && CanSend(cfg, s, a.who, a.event) {
      LateSend(a.who, s.stages, a.event);
    }
  }

  lemma {:induction false} TotalRun(cfg: Config, actions: seq<Action>, longer: seq<Action>)
    requires actions <= longer
    requires var s := After(cfg, actions); s.fired && !Asked(s) && !s.status.Starting?
    ensures var s, s' := After(cfg, actions), After(cfg, longer);
      s'.fired && !Asked(s') && !s'.status.Starting? && Total(s') <= Total(s)
  {
    if longer == actions {
    } else {
      var before := longer[..|longer| - 1];
      TotalRun(cfg, actions, before);
      StagesRun(cfg, before);
      TotalNext(cfg, After(cfg, before), longer[|longer| - 1]);
    }
  }

  // ---- And as much as that ----

  /** Who can send in a state where someone can. */
  function Sender(s: Loop): Producer {
    if Budget(s.stages, Reconnection) > 0 then Reconnection
    else if Budget(s.stages, PeerEvents) > 0 then PeerEvents
    else if Budget(s.stages, IncomingMessages) > 0 then IncomingMessages
    else OutgoingTicks
  }

  function EventOf(who: Producer): Event {
    match who
    case IncomingMessages => IncomingMessage(0, 0)
    case OutgoingTicks => SendOutgoing
    case _ => PeerConnected(0, true)
  }

  /** An action that brings the next event nearer to being taken. */
  function Onward(s: Loop): Action {
    if s.queue != [] then Take(true, 0, 0)
    else if Late(s.stages) > 0 then Send(Sender(s), EventOf(Sender(s)))
    else Move(OutgoingTicks, Select)
  }

  /** How far off the next event is. */
  function Off(s: Loop): nat {
    if s.queue != [] then 0 else if Late(s.stages) > 0 then 1 else 2
  }

  predicate Gets(s: Loop, goal: nat) {
    s.status.Running? && (!s.fired || goal <= Total(s))
  }

  lemma OnwardSend(cfg: Config, s: Loop)
    requires StagesInv(s) && s.status.Running? && s.queue == [] && Late(s.stages) > 0
    ensures CanSend(cfg, s, Sender(s), EventOf(Sender(s)))
  {
  }

  lemma OnwardNext(cfg: Config, s: Loop, goal: nat)
    requires StagesInv(s) && Gets(s, goal) && |s.taken| < goal
    ensures var s' := Next(cfg, s, Onward(s));
      && Gets(s', goal)
      && (|s'.taken| > |s.taken| || (s'.taken == s.taken && Off(s') < Off(s)))
  {
    if s.queue != [] {
    } else if Late(s.stages) > 0 {
      OnwardSend(cfg, s);
      LateSend(Sender(s), s.stages, EventOf(Sender(s)));
    } else {
      assert OutgoingTicks in s.stages.Keys;
    }
  }

  lemma {:induction false} GetsThere(cfg: Config, actions: seq<Action>, goal: nat) returns (longer: seq<Action>)
    requires Gets(After(cfg, actions), goal)
    ensures actions <= longer && |After(cfg, longer).taken| >= goal
    decreases goal - |After(cfg, actions).taken|, Off(After(cfg, actions))
  {
    var s := After(cfg, actions);
    if |s.taken| >= goal {
      longer := actions;
    } else {
      StagesRun(cfg, actions);
      OnwardNext(cfg, s, goal);
      AfterLast(cfg, actions, Onward(s));
      longer := GetsThere(cfg, actions + [Onward(s)], goal);
    }
  }

  lemma ListedGets(cfg: Config, s: Loop, n: nat)
    requires s.status.Running? && Asked(s)
    ensures var s' := Next(cfg, s, Move(Reconnection, Listed(n)));
      Gets(s', |s.taken| + n) && s'.taken == s.taken
  {
  }

  lemma AskedGets(cfg: Config, actions: seq<Action>, n: nat) returns (longer: seq<Action>)
    requires var s := After(cfg, actions); s.status.Running? && Asked(s)
    ensures actions <= longer && |After(cfg, longer).taken| >= |After(cfg, actions).taken| + n
  {
    var s, listed := After(cfg, actions), Move(Reconnection, Listed(n));
    AfterLast(cfg, actions, listed);
    ListedGets(cfg, s, n);
    longer := GetsThere(cfg, actions + [listed], |s.taken| + n);
  }

  // ---- Exactly how much ----

  /**
   From every point at which the consumer runs: `n` more events can be taken if and only if
   shutdown has not fired, or the reconnection listener is still waiting for a list of peers, or
   they are in the channel or in the hands of a producer already.
   */
  lemma HowManyMore(cfg: Config, actions: seq<Action>, n: nat)
    requires After(cfg, actions).status.Running?
    ensures var s := After(cfg, actions);
      CanTake(cfg, actions, n) <==> !s.fired || Asked(s) || n <= |s.queue| + Late(s.stages)
  {
    var s := After(cfg, actions);
    if Asked(s) {
      var longer := AskedGets(cfg, actions, n);
    } else if !s.fired || n <= |s.queue| + Late(s.stages) {
      var longer := GetsThere(cfg, actions, |s.taken| + n);
    } else {
      forall longer | actions <= longer ensures |After(cfg, longer).taken| < |s.taken| + n {
        TotalRun(cfg, actions, longer);
      }
    }
  }

  /** It can go on without end exactly if shutdown has not fired, but for that list. */
  lemma RunsOnIff(cfg: Config, actions: seq<Action>)
    requires After(cfg, actions).status.Running?
    ensures var s := After(cfg, actions); (forall n: nat :: CanTake(cfg, actions, n)) <==> !s.fired || Asked(s)
  {
    var s := After(cfg, actions);
    if !s.fired || Asked(s) {
      forall n: nat ensures CanTake(cfg, actions, n) {
        HowManyMore(cfg, actions, n);
      }
    } else {
      HowManyMore(cfg, actions, |s.queue| + Late(s.stages) + 1);
    }
  }

  /** Taking what a producer says of its exit does not fire shutdown: a loop that could go on still can. */
  lemma RunsOnAfterProducerExit(cfg: Config, actions: seq<Action>, take: Action)
    requires var s := After(cfg, actions);
      s.status.Running? && !s.fired && s.queue != [] && s.queue[0].event.ProducerExit? && take.Take?
    ensures After(cfg, actions + [take]).status.Running?
    ensures forall n: nat :: CanTake(cfg, actions + [take], n)
  {
    AfterLast(cfg, actions, take);
    RunsOnIff(cfg, actions + [take]);
  }

  // ---- Shutdown ends the loop ----

  /** The steps a producer has left once shutdown has fired, its events counted again when taken. */
  function StageWeight(stage: Stage): nat {
    match stage
    case Subscribing => 2
    case Holding => 3
    case Listing(left) => 2 * left + 1
    case _ => 1
  }

  function Weight(stages: map<Producer, Stage>, who: Producer): nat {
    if who in stages then StageWeight(stages[who]) else 0
  }

  function Weights(stages: map<Producer, Stage>): nat {
    Weight(stages, Reconnection) + Weight(stages, PeerEvents) +
    Weight(stages, IncomingMessages) + Weight(stages, OutgoingTicks)
  }

  lemma WeightsChange(stages: map<Producer, Stage>, who: Producer, stage: Stage)
    requires who in stages && !who.Startup?
    ensures Weights(stages[who := stage]) == Weights(stages) - StageWeight(stages[who]) + StageWeight(stage)
    ensures Weights(stages - {who}) == Weights(stages) - StageWeight(stages[who])
  {
  }

  function Distance(s: Loop): nat {
    (if s.status.Running? then 1 else 0) + |s.queue| + Weights(s.stages)
  }

  /** Nearer to the end: a list of peers less to wait for, or fewer steps left. */
  predicate Nearer(s': Loop, s: Loop) {
    (Asked(s) && !Asked(s')) || (Asked(s') == Asked(s) && Distance(s') < Distance(s))
  }

  lemma LighterMove(who: Producer, stage: Stage, move: Move, notifying: bool)
    requires StageOk(who, stage)
    ensures var p := ProgressOf(who, stage, move, true, notifying);
      p.Reaches? ==> !p.stage.Asking? && (stage.Asking? || StageWeight(p.stage) < StageWeight(stage))
  {
  }

  lemma NearerMoved(s: Loop, who: Producer, move: Move)
    requires StagesInv(s) && s.fired && s.status.Running? && who in s.stages
    ensures Moved(s, who, move) == s || Nearer(Moved(s, who, move), s)
  {
    var notifying := PeerEvents in s.stages && s.stages[PeerEvents].Subscribing?;
    var p := ProgressOf(who, s.stages[who], move, s.fired, notifying);
    LighterMove(who, s.stages[who], move, notifying);
    WeightsChange(s.stages, who, if p.Reaches? then p.stage else AtSelect);
  }

  lemma LighterSend(who: Producer, stage: Stage, event: Event)
    requires StageOk(who, stage)
    ensures var after := AfterSend(who, stage, event);
      after.Some? ==> StageWeight(after.value) + 2 == StageWeight(stage) && !after.value.Asking? && !stage.Asking?
  {
  }

  lemma NearerSend(cfg: Config, s: Loop, who: Producer, event: Event)
    requires StagesInv(s) && CanSend(cfg, s, who, event)
    ensures Nearer(Next(cfg, s, Send(who, event)), s)
  {
    LighterSend(who, s.stages[who], event);
    WeightsChange(s.stages, who, AfterSend(who, s.stages[who], event).value);
  }

  /** Something the loop can still do. */
  function Remaining(s: Loop): Action {
    if s.queue != [] then Take(true, 0, 0)
    else if Late(s.stages) > 0 then Send(Sender(s), EventOf(Sender(s)))
    else if Reconnection in s.stages then Move(Reconnection, if Asked(s) then ListFails else Select)
    else if PeerEvents in s.stages then Move(PeerEvents, WayOut(s.stages[PeerEvents]))
    else if IncomingMessages in s.stages then Move(IncomingMessages, WayOut(s.stages[IncomingMessages]))
    else if OutgoingTicks in s.stages then Move(OutgoingTicks, Select)
    else SeeClosed
  }

  function WayOut(stage: Stage): Move {
    if stage.Resubscribing? then Resubscribe
    else if stage.Subscribing? then Subscribed
    else if stage.Leaving? then Leave
    else Select
  }

  lemma OneRemains(cfg: Config, s: Loop)
    requires StagesInv(s) && s.fired && s.status.Running?
    ensures Next(cfg, s, Remaining(s)) != s
  {
    if s.queue != [] {
    } else if Late(s.stages) > 0 {
      OnwardSend(cfg, s);
    } else if s.stages.Keys !! {Reconnection, PeerEvents, IncomingMessages, OutgoingTicks} {
      assert s.stages == map[] by {
        assert forall who :: who in s.stages ==> who in {Reconnection, PeerEvents, IncomingMessages, OutgoingTicks};
      }
    }
  }

  /**
   Once shutdown has fired the loop ends: whatever happens, if it changes anything, brings it
   nearer to its return, and until then there is something that does.
   */
  lemma ShutdownEnds(cfg: Config, actions: seq<Action>, a: Action)
    requires After(cfg, actions).fired && After(cfg, actions).status.Running?
    ensures var s, s' := After(cfg, actions), After(cfg, actions + [a]);
      && s'.fired && (s' == s || Nearer(s', s))
      && exists b :: After(cfg, actions + [b]) != s
  {
    var s := After(cfg, actions);
    StagesRun(cfg, actions);
    AfterLast(cfg, actions, a);
    if a.Move? && a.who in s.stages {
      NearerMoved(s, a.who, a.move);
    } else if a.Send? && CanSend(cfg, s, a.who, a.event) {
      NearerSend(cfg, s, a.who, a.event);
    }
    OneRemains(cfg, s);
    AfterLast(cfg, actions, Remaining(s));
    assert After(cfg, actions + [Remaining(s)]) != s;
  }

  // ---- The exit that ends nothing ----

  lemma GoneNext(cfg: Config, s: Loop, a: Action, who: Producer)
    requires !s.status.Starting? && who !in s.stages && !who.Startup?
    ensures var s' := Next(cfg, s, a);
      !s'.status.Starting? && who !in s'.stages && EmittedBy(cfg, s, a, who) == []
  {
  }

  lemma {:induction false} GoneForGood(cfg: Config, actions: seq<Action>, longer: seq<Action>, who: Producer)
    requires actions <= longer
    requires var s := After(cfg, actions); !s.status.Starting? && who !in s.stages && !who.Startup?
    ensures !After(cfg, longer).status.Starting? && who !in After(cfg, longer).stages
    ensures Emitted(cfg, longer, who) == Emitted(cfg, actions, who)
  {
    if longer == actions {
    } else {
      var before := longer[..|longer| - 1];
      GoneForGood(cfg, actions, before, who);
      GoneNext(cfg, After(cfg, before), longer[|longer| - 1], who);
    }
  }

  /**
   A message subscription that fails for good fires nothing and says nothing: the loop can go on
   without end, and no continuation ever brings another incoming message, or an exit.
   */
  lemma DeafLoop(cfg: Config, actions: seq<Action>)
    requires var s := After(cfg, actions);
      && s.status.Running? && !s.fired
      && IncomingMessages in s.stages && s.stages[IncomingMessages].Subscribing?
    ensures var deaf := actions + [Move(IncomingMessages, SubscribeFails)];
      && After(cfg, deaf).status.Running? && After(cfg, deaf).sent == After(cfg, actions).sent
      && (forall n: nat :: CanTake(cfg, deaf, n))
      && (forall longer :: deaf <= longer ==>
            Emitted(cfg, longer, IncomingMessages) == Emitted(cfg, actions, IncomingMessages))
  {
    var fails := Move(IncomingMessages, SubscribeFails);
    var deaf := actions + [fails];
    AfterLast(cfg, actions, fails);
    RunsOnIff(cfg, deaf);
    assert deaf[..|actions|] == actions;
    assert Emitted(cfg, deaf, IncomingMessages) == Emitted(cfg, actions, IncomingMessages);
    forall longer | deaf <= longer
      ensures Emitted(cfg, longer, IncomingMessages) == Emitted(cfg, actions, IncomingMessages)
    {
      GoneForGood(cfg, deaf, longer, IncomingMessages);
    }
  }

  lemma {:induction false} StartupSent(cfg: Config, n: nat) returns (actions: seq<Action>)
    requires n <= |cfg.startup|
    ensures var s := After(cfg, actions); s.status.Starting? && !s.fired && |s.sent| == n
  {
    actions := [];
    if n == 0 {
    } else {
      actions := StartupSent(cfg, n - 1);
      ChannelConservation(cfg, actions, Startup);
      LoopInvariants(cfg, actions);
      AfterLast(cfg, actions, SendStartup);
      actions := actions + [SendStartup];
    }
  }

  /** Every loop, whatever peers it starts with, can come to that point. */
  lemma DeafLoopReachable(cfg: Config) returns (actions: seq<Action>)
    ensures var s := After(cfg, actions);
      && s.status.Running? && !s.fired
      && IncomingMessages in s.stages && s.stages[IncomingMessages].Subscribing?
  {
    var begun := StartupSent(cfg, |cfg.startup|);
    AfterLast(cfg, begun, Spawn);
    AfterLast(cfg, begun + [Spawn], Move(IncomingMessages, Resubscribe));
    actions := begun + [Spawn] + [Move(IncomingMessages, Resubscribe)];
  }
}
