/**
 The producer loops of src/onion_messenger.rs: peer events, incoming messages and outgoing ticks.
 All three wait on the shutdown signal and their source in a biased select, send the image of
 what they received, and say so when the source fails.
 */
module Producers {
  import opened Common
  import opened EventLoop

  const ONION_MESSAGE_TYPE := 513

  /** What a source yields. */
  datatype Item =
    | PeerOnline(peer: PublicKey, onionSupport: bool)
    | PeerOffline(peer: PublicKey)
    | CustomMessage(kind: nat, peer: PublicKey, parsed: Option<nat>)
    | Tick

  /**
   One wake-up of the loop: the select completes at `selectedAt` with what the source gave, and a
   send it leads to is through at `sentAt`, unless the channel has been closed.
   */
  datatype Wake = Wake(selectedAt: nat, received: Result<Item, nat>, sentAt: nat, delivered: bool)

  datatype Emission = Emission(event: Event, at: nat)

  datatype Exit = StillRunning | Shutdown | SendError | StreamError

  function Image(item: Item): Option<Event> {
    match item
    case PeerOnline(p, support) => Some(PeerConnected(p, support))
    case PeerOffline(p) => Some(PeerDisconnected(p))
    case CustomMessage(kind, p, parsed) =>
      if kind == ONION_MESSAGE_TYPE && parsed.Some? then Some(IncomingMessage(p, parsed.value)) else None
    case Tick => Some(SendOutgoing)
  }

  /** The filtered image of a stretch of the source, in order. */
  function Images(wakes: seq<Wake>): seq<Event> {
    if wakes == [] then [] else
      var last := wakes[|wakes| - 1];
      Images(wakes[..|wakes| - 1]) +
      if last.received.Ok? && Image(last.received.value).Some? then [Image(last.received.value).value] else []
  }

  function Events(emitted: seq<Emission>): seq<Event> {
    seq(|emitted|, i requires 0 <= i < |emitted| => emitted[i].event)
  }

  /** Nothing a source yields passes for the exit of a producer. */
  lemma {:induction false} ImagesAreNoExit(wakes: seq<Wake>, i: nat)
    requires i < |Images(wakes)|
    ensures !Images(wakes)[i].ProducerExit?
  {
    if i < |Images(wakes[..|wakes| - 1])| {
      ImagesAreNoExit(wakes[..|wakes| - 1], i);
    }
  }

  lemma ImagesNext(wakes: seq<Wake>, i: nat)
    requires i < |wakes|
    ensures Images(wakes[..i + 1]) == Images(wakes[..i]) +
            if wakes[i].received.Ok? && Image(wakes[i].received.value).Some?
            then [Image(wakes[i].received.value).value] else []
  {
    assert wakes[..i + 1][..i] == wakes[..i];
  }

  /** The item that leads to an event. */
  function Origin(event: Event): Item {
    match event
    case PeerConnected(p, support) => PeerOnline(p, support)
    case PeerDisconnected(p) => PeerOffline(p)
    case IncomingMessage(p, message) => CustomMessage(513, p, Some(message))
    case _ => Tick
  }

  function Origins(events: seq<Event>): seq<Item> {
    seq(|events|, i requires 0 <= i < |events| => Origin(events[i]))
  }

  /** Of what a source yields only custom messages of another type, or that do not parse, are passed over. */
  predicate Relevant(item: Item) {
    item.CustomMessage? ==> item.kind == 513 && item.parsed.Some?
  }

  function RelevantItems(wakes: seq<Wake>): seq<Item> {
    if wakes == [] then [] else
      var received := wakes[|wakes| - 1].received;
      RelevantItems(wakes[..|wakes| - 1]) + if received.Ok? && Relevant(received.value) then [received.value] else []
  }

  lemma OriginOfImage(item: Item)
    ensures Image(item).Some? <==> Relevant(item)
    ensures Image(item).Some? ==> Origin(Image(item).value) == item
  {
  }

  /** Every relevant item can be told from its event: none is lost, changed, repeated or out of order. */
  lemma {:induction false} ImagesRoundTrip(wakes: seq<Wake>)
    ensures Origins(Images(wakes)) == RelevantItems(wakes)
  {
    if wakes == [] {
    } else {
      ImagesRoundTrip(wakes[..|wakes| - 1]);
      var received := wakes[|wakes| - 1].received;
      if received.Ok? {
        OriginOfImage(received.value);
      }
    }
  }

  lemma {:induction false} ImagesPrefix(wakes: seq<Wake>, n: nat)
    requires n <= |wakes|
    ensures Images(wakes[..n]) <= Images(wakes)
  {
    if n == |wakes| {
      assert wakes[..n] == wakes;
    } else {
      assert wakes[..|wakes| - 1][..n] == wakes[..n];
      ImagesPrefix(wakes[..|wakes| - 1], n);
    }
  }

  predicate InTime(wakes: seq<Wake>) {
    && (forall i :: 0 <= i < |wakes| ==> wakes[i].selectedAt <= wakes[i].sentAt)
    && (forall i, j :: 0 <= i < j < |wakes| ==> wakes[i].sentAt <= wakes[j].selectedAt)
  }

  /** The shutdown signal has fired by now. */
  predicate Quits(shutdownAt: Option<nat>, now: nat) {
    shutdownAt.Some? && shutdownAt.value <= now
  }

  predicate Fired(shutdownAt: Option<nat>, w: Wake) {
    Quits(shutdownAt, w.selectedAt)
  }

  /** The loop gets past this wake-up: nothing is sent, or what is sent gets through. */
  predicate GoesOn(w: Wake, shutdownAt: Option<nat>) {
    w.received.Ok? && !Fired(shutdownAt, w) && (Image(w.received.value).Some? ==> w.delivered)
  }

  predicate OnlyLastLate(emitted: seq<Emission>, shutdownAt: Option<nat>) {
    shutdownAt.Some? ==> forall i :: 0 <= i < |emitted| - 1 ==> emitted[i].at < shutdownAt.value
  }

  lemma EmitOneMore(emitted: seq<Emission>, e: Emission, w: Wake, shutdownAt: Option<nat>)
    requires OnlyLastLate(emitted, shutdownAt) && !Fired(shutdownAt, w)
    requires emitted != [] ==> emitted[|emitted| - 1].at <= w.selectedAt
    ensures OnlyLastLate(emitted + [e], shutdownAt)
    ensures Events(emitted + [e]) == Events(emitted) + [e.event]
  {
  }

  /** How the loop ends if it does not get past this wake-up. */
  function ExitAt(w: Wake, shutdownAt: Option<nat>): Exit {
    if Fired(shutdownAt, w) then Shutdown else if w.received.Err? then StreamError else SendError
  }

  // ---- From the source to the consumer ----

  /** What a producer may have sent of what its source gave: the image of some of it, and perhaps its exit. */
  ghost predicate OutputOf(events: seq<Event>, exitError: ConsumerError, wakes: seq<Wake>) {
    exists n: nat :: n <= |wakes| && IsOutput(events, exitError, wakes, n)
  }

  predicate IsOutput(events: seq<Event>, exitError: ConsumerError, wakes: seq<Wake>, n: nat)
    requires n <= |wakes|
  {
    events == Images(wakes[..n]) || events == Images(wakes[..n]) + [ProducerExit(exitError)]
  }

  /** Part of a source's filtered image, from its beginning, followed by at most one exit. */
  predicate PrefixThenExit(events: seq<Event>, exitError: ConsumerError, image: seq<Event>) {
    || events <= image
    || (events != [] && events[|events| - 1] == ProducerExit(exitError) && events[..|events| - 1] <= image)
  }

  lemma OutputPrefix(events: seq<Event>, output: seq<Event>, exitError: ConsumerError, wakes: seq<Wake>)
    requires events <= output && OutputOf(output, exitError, wakes)
    ensures PrefixThenExit(events, exitError, Images(wakes))
  {
    var n: nat :| n <= |wakes| && IsOutput(output, exitError, wakes, n);
    ImagesPrefix(wakes, n);
    if |events| <= |Images(wakes[..n])| {
      assert events == Images(wakes[..n])[..|events|];
    } else {
      assert events == output;
    }
  }

  /**
   End to end, under every schedule: if what a producer has sent since `earlier` (nothing, or what
   it sent on behalf of subscriptions before this one) is output of the source `wakes`, then what
   the consumer has taken of it since is the image of the beginning of that source, then at
   most one ProducerExit.
   */
  lemma TakenFromSource(cfg: Config, actions: seq<Action>, who: Producer, earlier: seq<Event>, output: seq<Event>,
                        exitError: ConsumerError, wakes: seq<Wake>)
    requires Emitted(cfg, actions, who) == earlier + output && OutputOf(output, exitError, wakes)
    ensures var taken := From(After(cfg, actions).taken, who);
      taken <= earlier ||
      (earlier <= taken && PrefixThenExit(taken[|earlier|..], exitError, Images(wakes)))
  {
    var s := After(cfg, actions);
    ChannelConservation(cfg, actions, who);
    FromConcat(s.taken, s.queue, who);
    var taken := From(s.taken, who);
    assert taken <= earlier + output;
    if |taken| > |earlier| {
      assert taken == earlier + output[..|taken| - |earlier|];
      OutputPrefix(taken[|earlier|..], output, exitError, wakes);
    }
  }

  // ---- The loop ----

  /** The loop has gone through `i` wake-ups in full. */
  predicate SoFar(wakes: seq<Wake>, shutdownAt: Option<nat>, i: nat, emitted: seq<Emission>)
    requires i <= |wakes|
  {
    && (forall j :: 0 <= j < i ==> GoesOn(wakes[j], shutdownAt))
    && Events(emitted) == Images(wakes[..i])
    && OnlyLastLate(emitted, shutdownAt)
    && (emitted != [] ==> i > 0 && emitted[|emitted| - 1].at <= wakes[i - 1].sentAt)
  }

  /**
   What a producer does with these wake-ups. It goes through `handled` of them in full, what it
   sends getting through, and ends for the reason the next one gives. What it emits is
   the filtered image of those, in order, and if the source then fails one ProducerExit. Of
   everything it emits, only the last can come after the shutdown signal.
   */
  ghost predicate Produced(exitError: ConsumerError, wakes: seq<Wake>, shutdownAt: Option<nat>,
                           exit: Exit, emitted: seq<Emission>, handled: nat)
  {
    && handled <= |wakes|
    && (forall i :: 0 <= i < handled ==> GoesOn(wakes[i], shutdownAt))
    && (handled < |wakes| ==> !GoesOn(wakes[handled], shutdownAt))
    && exit == (if handled == |wakes| then StillRunning else ExitAt(wakes[handled], shutdownAt))
    && Events(emitted) == Images(wakes[..handled]) +
         (if exit.StreamError? && wakes[handled].delivered then [ProducerExit(exitError)] else [])
    && OutputOf(Events(emitted), exitError, wakes)
    && OnlyLastLate(emitted, shutdownAt)
    && (emitted != [] ==> wakes != [] && emitted[|emitted| - 1].at <= wakes[|wakes| - 1].sentAt)
  }

  lemma SkipOne(wakes: seq<Wake>, shutdownAt: Option<nat>, i: nat, emitted: seq<Emission>)
    requires i < |wakes| && InTime(wakes) && SoFar(wakes, shutdownAt, i, emitted)
    requires GoesOn(wakes[i], shutdownAt) && Image(wakes[i].received.value).None?
    ensures SoFar(wakes, shutdownAt, i + 1, emitted)
  {
    ImagesNext(wakes, i);
  }

  lemma SendOne(wakes: seq<Wake>, shutdownAt: Option<nat>, i: nat, emitted: seq<Emission>, event: Event)
    requires i < |wakes| && InTime(wakes) && SoFar(wakes, shutdownAt, i, emitted)
    requires GoesOn(wakes[i], shutdownAt) && Image(wakes[i].received.value) == Some(event)
    ensures SoFar(wakes, shutdownAt, i + 1, emitted + [Emission(event, wakes[i].sentAt)])
  {
    ImagesNext(wakes, i);
    EmitOneMore(emitted, Emission(event, wakes[i].sentAt), wakes[i], shutdownAt);
  }

  /** Ending at wake-up `i`, or running still after them all, with nothing more to say. */
  lemma EndsAt(exitError: ConsumerError, wakes: seq<Wake>, shutdownAt: Option<nat>, i: nat, emitted: seq<Emission>)
    requires i <= |wakes| && InTime(wakes) && SoFar(wakes, shutdownAt, i, emitted)
    requires i < |wakes| ==> !GoesOn(wakes[i], shutdownAt)
    requires i < |wakes| && ExitAt(wakes[i], shutdownAt).StreamError? ==> !wakes[i].delivered
    ensures Produced(exitError, wakes, shutdownAt,
                     if i == |wakes| then StillRunning else ExitAt(wakes[i], shutdownAt), emitted, i)
  {
    assert IsOutput(Events(emitted), exitError, wakes, i);
  }

  lemma StreamFailsAt(exitError: ConsumerError, wakes: seq<Wake>, shutdownAt: Option<nat>, i: nat, emitted: seq<Emission>)
    requires i < |wakes| && InTime(wakes) && SoFar(wakes, shutdownAt, i, emitted)
    requires ExitAt(wakes[i], shutdownAt).StreamError? && wakes[i].delivered
    ensures Produced(exitError, wakes, shutdownAt, StreamError,
                     emitted + [Emission(ProducerExit(exitError), wakes[i].sentAt)], i)
  {
    var exit := Emission(ProducerExit(exitError), wakes[i].sentAt);
    EmitOneMore(emitted, exit, wakes[i], shutdownAt);
    assert IsOutput(Events(emitted + [exit]), exitError, wakes, i);
  }

  /** A producer, observed for as many wake-ups as there are. */
  method Produce(exitError: ConsumerError, wakes: seq<Wake>, shutdownAt: Option<nat>)
    returns (exit: Exit, emitted: seq<Emission>, handled: nat)
    requires InTime(wakes)
    ensures Produced(exitError, wakes, shutdownAt, exit, emitted, handled)
  {
    emitted := [];
    for i := 0 to |wakes|
      invariant SoFar(wakes, shutdownAt, i, emitted)
    {
      var w := wakes[i];
      if shutdownAt.Some? && shutdownAt.value <= w.selectedAt {
        EndsAt(exitError, wakes, shutdownAt, i, emitted);
        return Shutdown, emitted, i;
      }
      match w.received
      case Err(_) =>
        if w.delivered {
          StreamFailsAt(exitError, wakes, shutdownAt, i, emitted);
          emitted := emitted + [Emission(ProducerExit(exitError), w.sentAt)];
        } else {
          EndsAt(exitError, wakes, shutdownAt, i, emitted);
        }
        return StreamError, emitted, i;
      case Ok(item) =>
        var event := Image(item);
        if event.None? {
          SkipOne(wakes, shutdownAt, i, emitted);
          continue;
        }
        if !w.delivered {
          EndsAt(exitError, wakes, shutdownAt, i, emitted);
          return SendError, emitted, i;
        }
        SendOne(wakes, shutdownAt, i, emitted, event.value);
        emitted := emitted + [Emission(event.value, w.sentAt)];
    }
    EndsAt(exitError, wakes, shutdownAt, |wakes|, emitted);
    return StillRunning, emitted, |wakes|;
  }

  // ---- The producer of incoming messages subscribes again and again ----

  /** A turn around the subscription: its select completes at `selectedAt`, and LND then gives a stream, or none. */
  datatype Subscription = Subscription(selectedAt: nat, stream: Result<seq<Wake>, nat>)

  function EndOf(sub: Subscription): nat {
    if sub.stream.Ok? && sub.stream.value != [] then sub.stream.value[|sub.stream.value| - 1].sentAt else sub.selectedAt
  }

  predicate AllInTime(subs: seq<Subscription>) {
    && (forall i :: 0 <= i < |subs| && subs[i].stream.Ok? ==> InTime(subs[i].stream.value))
    && (forall i :: 0 <= i < |subs| ==> subs[i].selectedAt <= EndOf(subs[i]))
    && (forall i, j :: 0 <= i < j < |subs| ==> EndOf(subs[i]) <= subs[j].selectedAt)
  }

  ghost predicate SessionOf(events: seq<Event>, sub: Subscription) {
    if sub.stream.Ok? then OutputOf(events, IncomingMessageProducerExit, sub.stream.value) else events == []
  }

  /** The output of one subscription after the other. */
  ghost predicate SessionsOf(events: seq<Event>, subs: seq<Subscription>)
    decreases |subs|, 1
  {
    if subs == [] then events == []
    else exists m: nat :: m <= |events| && SplitsAt(events, subs, m)
  }

  ghost predicate SplitsAt(events: seq<Event>, subs: seq<Subscription>, m: nat)
    requires subs != [] && m <= |events|
    decreases |subs|, 0
  {
    SessionsOf(events[..m], subs[..|subs| - 1]) && SessionOf(events[m..], subs[|subs| - 1])
  }

  lemma SessionsNext(events: seq<Event>, more: seq<Event>, subs: seq<Subscription>, n: nat)
    requires n < |subs| && SessionsOf(events, subs[..n]) && SessionOf(more, subs[n])
    ensures SessionsOf(events + more, subs[..n + 1])
  {
    assert subs[..n + 1][..n] == subs[..n];
    assert (events + more)[..|events|] == events && (events + more)[|events|..] == more;
    assert SplitsAt(events + more, subs[..n + 1], |events|);
  }

  /** Subscriptions taken in full, then what has been taken of the next. */
  ghost predicate SessionsCut(events: seq<Event>, subs: seq<Subscription>, k: nat, m: nat) {
    && k <= |subs| && m <= |events| && SessionsOf(events[..m], subs[..k])
    && (k == |subs| ==> m == |events|)
    && (k < |subs| ==>
          if subs[k].stream.Ok? then PrefixThenExit(events[m..], IncomingMessageProducerExit, Images(subs[k].stream.value))
          else m == |events|)
  }

  lemma {:induction false} SessionsPrefix(events: seq<Event>, output: seq<Event>, subs: seq<Subscription>)
    returns (k: nat, m: nat)
    requires events <= output && SessionsOf(output, subs)
    ensures SessionsCut(events, subs, k, m)
    decreases |subs|
  {
    if subs == [] {
      k, m := 0, 0;
    } else {
      var n := |subs| - 1;
      var cut: nat :| cut <= |output| && SplitsAt(output, subs, cut);
      if |events| <= cut {
        k, m := SessionsPrefix(events, output[..cut], subs[..n]);
        assert subs[..n][..k] == subs[..k];
        assert k == n ==> events[m..] == [];
      } else {
        k, m := n, cut;
        assert events[..cut] == output[..cut];
        assert events[cut..] <= output[cut..];
        if subs[n].stream.Ok? {
          OutputPrefix(events[cut..], output[cut..], IncomingMessageProducerExit, subs[n].stream.value);
        }
      }
    }
  }

  /**
   End to end over all subscriptions: what the consumer has taken of the incoming messages is the
   output of some subscriptions in full, then the image of the beginning of the next and at most
   one ProducerExit.
   */
  lemma TakenFromSubscriptions(cfg: Config, actions: seq<Action>, subs: seq<Subscription>) returns (k: nat, m: nat)
    requires SessionsOf(Emitted(cfg, actions, IncomingMessages), subs)
    ensures SessionsCut(From(After(cfg, actions).taken, IncomingMessages), subs, k, m)
  {
    var s := After(cfg, actions);
    ChannelConservation(cfg, actions, IncomingMessages);
    FromConcat(s.taken, s.queue, IncomingMessages);
    k, m := SessionsPrefix(From(s.taken, IncomingMessages), Emitted(cfg, actions, IncomingMessages), subs);
  }

  /** The stream of this subscription fails, or what it leads to cannot be sent, before shutdown is seen. */
  predicate GivesOut(sub: Subscription, shutdownAt: Option<nat>) {
    sub.stream.Ok? &&
    exists h :: 0 <= h < |sub.stream.value| && GivesOutAt(sub.stream.value, shutdownAt, h)
  }

  predicate GivesOutAt(wakes: seq<Wake>, shutdownAt: Option<nat>, h: nat)
    requires h < |wakes|
  {
    && !GoesOn(wakes[h], shutdownAt) && !Fired(shutdownAt, wakes[h])
    && forall i :: 0 <= i < h ==> GoesOn(wakes[i], shutdownAt)
  }

  lemma GivesOutIff(
      wakes: seq<Wake>, shutdownAt: Option<nat>, exit: Exit, emitted: seq<Emission>, handled: nat, sub: Subscription)
    requires Produced(IncomingMessageProducerExit, wakes, shutdownAt, exit, emitted, handled) && sub.stream == Ok(wakes)
    ensures exit.SendError? || exit.StreamError? <==> GivesOut(sub, shutdownAt)
  {
    if handled < |wakes| && !Fired(shutdownAt, wakes[handled]) {
      assert GivesOutAt(wakes, shutdownAt, handled);
    }
    if GivesOut(sub, shutdownAt) {
      var h :| 0 <= h < |wakes| && GivesOutAt(wakes, shutdownAt, h);
      assert h == handled;
    }
  }

  /**
   What the producer of incoming messages has emitted in its first `n` turns: the output of one
   subscription after the other, of which only the last event can come after the shutdown signal.
   */
  ghost predicate TurnsSoFar(subs: seq<Subscription>, shutdownAt: Option<nat>, n: nat, emitted: seq<Emission>)
    requires n <= |subs|
  {
    && SessionsOf(Events(emitted), subs[..n])
    && OnlyLastLate(emitted, shutdownAt)
    && (emitted != [] ==> n > 0 && emitted[|emitted| - 1].at <= EndOf(subs[n - 1]))
  }

  lemma StillOnlyLastLate(emitted: seq<Emission>, more: seq<Emission>, shutdownAt: Option<nat>, now: nat)
    requires OnlyLastLate(emitted, shutdownAt) && OnlyLastLate(more, shutdownAt)
    requires emitted != [] ==> emitted[|emitted| - 1].at <= now
    requires shutdownAt.Some? ==> now < shutdownAt.value
    ensures OnlyLastLate(emitted + more, shutdownAt)
    ensures Events(emitted + more) == Events(emitted) + Events(more)
  {
  }

  lemma SubscribeOnce(subs: seq<Subscription>, shutdownAt: Option<nat>, n: nat, emitted: seq<Emission>, more: seq<Emission>)
    requires AllInTime(subs) && n < |subs| && TurnsSoFar(subs, shutdownAt, n, emitted)
    requires !Quits(shutdownAt, subs[n].selectedAt)
    requires SessionOf(Events(more), subs[n]) && OnlyLastLate(more, shutdownAt)
    requires more != [] ==> more[|more| - 1].at <= EndOf(subs[n])
    ensures TurnsSoFar(subs, shutdownAt, n + 1, emitted + more)
  {
    StillOnlyLastLate(emitted, more, shutdownAt, subs[n].selectedAt);
    SessionsNext(Events(emitted), Events(more), subs, n);
  }

  /**
   subscribe_custom_messages_with_retry, observed for as many turns as there are. It turns to the
   next subscription exactly if the stream of this one gives out, until it sees shutdown.
   */
  method SubscribeWithRetry(subs: seq<Subscription>, shutdownAt: Option<nat>)
    returns (emitted: seq<Emission>, turns: nat)
    requires AllInTime(subs)
    ensures turns <= |subs|
    ensures TurnsSoFar(subs, shutdownAt, turns, emitted)
    ensures forall i :: 0 <= i < turns ==> !Quits(shutdownAt, subs[i].selectedAt)
    ensures forall i :: 0 <= i < turns - 1 ==> GivesOut(subs[i], shutdownAt)
    ensures turns < |subs| ==>
      Quits(shutdownAt, subs[turns].selectedAt) || (turns > 0 && !GivesOut(subs[turns - 1], shutdownAt))
  {
    emitted := [];
    for i := 0 to |subs|
      invariant TurnsSoFar(subs, shutdownAt, i, emitted)
      invariant forall j :: 0 <= j < i ==> GivesOut(subs[j], shutdownAt) && !Quits(shutdownAt, subs[j].selectedAt)
    {
      var sub := subs[i];
      if shutdownAt.Some? && shutdownAt.value <= sub.selectedAt {
        return emitted, i;
      }
      if sub.stream.Err? {
        SubscribeOnce(subs, shutdownAt, i, emitted, []);
        assert emitted + [] == emitted;
        return emitted, i + 1;
      }
      var exit, output, handled := Produce(IncomingMessageProducerExit, sub.stream.value, shutdownAt);
      SubscribeOnce(subs, shutdownAt, i, emitted, output);
      GivesOutIff(sub.stream.value, shutdownAt, exit, output, handled, sub);
      emitted := emitted + output;
      if exit.Shutdown? || exit.StillRunning? {
        return emitted, i + 1;
      }
    }
    return emitted, |subs|;
  }
}
