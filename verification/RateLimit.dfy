/**
 The token-bucket limiter of src/rate_limit.rs.

 `Limiter` is the value of a limiter and the functions on it are the specification
 of its operations; `TokenLimiter` is the object that updates its fields in place.
 Clock readings are parameters: `query_peer` reads the clock once to decide whether
 a new period has begun and, only if so, a second time to date that period.
 */
module RateLimit {
  import opened Common

  datatype PeerRecord = PeerRecord(online: bool, remaining: u8)

  datatype Limiter = Limiter(
    peers: map<PublicKey, PeerRecord>, callCount: u8, callFrequency: nat, lastUpdate: nat)

  function New(peers: seq<PublicKey>, callCount: u8, callFrequency: nat, now: nat): Limiter {
    Limiter(map p | p in peers :: PeerRecord(true, callCount), callCount, callFrequency, now)
  }

  /** `Instant::duration_since` saturates at zero. */
  function Elapsed(now: nat, since: nat): nat {
    if since <= now then now - since else 0
  }

  predicate NeedsUpdate(l: Limiter, now: nat) {
    Elapsed(now, l.lastUpdate) >= l.callFrequency
  }

  function Updated(l: Limiter, now: nat): Limiter {
    l.(peers := map p | p in l.peers && l.peers[p].online :: PeerRecord(true, l.callCount),
       lastUpdate := now)
  }

  predicate MayHit(l: Limiter, p: PublicKey) {
    p in l.peers && l.peers[p].remaining > 0
  }

  function AfterHit(l: Limiter, p: PublicKey): Limiter {
    if MayHit(l, p)
    then l.(peers := l.peers[p := l.peers[p].(remaining := l.peers[p].remaining - 1)])
    else l
  }

  function Connected(l: Limiter, p: PublicKey): Limiter {
    if p in l.peers
    then l.(peers := l.peers[p := l.peers[p].(online := true)])
    else l.(peers := l.peers[p := PeerRecord(true, l.callCount)])
  }

  function Disconnected(l: Limiter, p: PublicKey): Limiter {
    if p in l.peers then l.(peers := l.peers[p := l.peers[p].(online := false)]) else l
  }

  /** The limiter a query is answered from: refreshed first if a new period has begun. */
  function Refreshed(l: Limiter, checkAt: nat, updateAt: nat): Limiter {
    if NeedsUpdate(l, checkAt) then Updated(l, updateAt) else l
  }

  function Online(l: Limiter): set<PublicKey> {
    set p | p in l.peers && l.peers[p].online
  }

  class TokenLimiter {
    var peerMap: map<PublicKey, PeerRecord>
    const callCount: u8
    const callFrequency: nat
    var lastUpdate: nat

    ghost function State(): Limiter
      reads this
    {
      Limiter(peerMap, callCount, callFrequency, lastUpdate)
    }

    constructor (peers: seq<PublicKey>, callCount: u8, callFrequency: nat, now: nat)
      ensures State() == New(peers, callCount, callFrequency, now)
    {
      this.callCount, this.callFrequency, lastUpdate := callCount, callFrequency, now;
      peerMap := map[];
      new;
      for i := 0 to |peers|
        invariant peerMap == map p | p in peers[..i] :: PeerRecord(true, callCount)
        invariant lastUpdate == now
      {
        peerMap := peerMap[peers[i] := PeerRecord(true, callCount)];
      }
    }

    /** Drops every offline peer, then refills the buckets of those left. */
    method Update(now: nat)
      modifies this
      ensures State() == Updated(old(State()), now)
    {
      peerMap := map p | p in peerMap && peerMap[p].online :: peerMap[p];
      ghost var kept := peerMap;
      var todo := peerMap.Keys;
      while todo != {}
        invariant todo <= peerMap.Keys == kept.Keys
        invariant lastUpdate == old(lastUpdate)
        invariant forall p | p in kept ::
          peerMap[p] == if p in todo then kept[p] else kept[p].(remaining := callCount)
      {
        var p :| p in todo;
        peerMap := peerMap[p := peerMap[p].(remaining := callCount)];
        todo := todo - {p};
      }
      lastUpdate := now;
    }

    method Hit(p: PublicKey) returns (granted: bool)
      modifies this`peerMap
      ensures granted == MayHit(old(State()), p)
      ensures State() == AfterHit(old(State()), p)
    {
      if p in peerMap {
        var v := peerMap[p];
        if v.remaining == 0 {
          return false;
        }
        peerMap := peerMap[p := v.(remaining := v.remaining - 1)];
        return true;
      }
      return false;
    }

    method PeerConnected(p: PublicKey)
      modifies this`peerMap
      ensures State() == Connected(old(State()), p)
    {
      if p in peerMap {
        peerMap := peerMap[p := peerMap[p].(online := true)];
      } else {
        peerMap := peerMap[p := PeerRecord(true, callCount)];
      }
    }

    method PeerDisconnected(p: PublicKey)
      modifies this`peerMap
      ensures State() == Disconnected(old(State()), p)
    {
      if p in peerMap {
        peerMap := peerMap[p := peerMap[p].(online := false)];
      }
    }

    /** The online peers, each once, in an order of the map's choosing. */
    method Peers() returns (ps: seq<PublicKey>)
      ensures forall p :: p in ps <==> p in Online(State())
      ensures forall i, j :: 0 <= i < j < |ps| ==> ps[i] != ps[j]
    {
      ps := [];
      var todo := peerMap.Keys;
      while todo != {}
        invariant todo <= peerMap.Keys
        invariant forall p :: p in ps <==> p in Online(State()) && p !in todo
        invariant forall i, j :: 0 <= i < j < |ps| ==> ps[i] != ps[j]
      {
        var p :| p in todo;
        todo := todo - {p};
        if peerMap[p].online {
          ps := ps + [p];
        }
      }
    }

    method QueryPeer(p: PublicKey, checkAt: nat, updateAt: nat) returns (granted: bool)
      modifies this
      ensures granted == MayHit(Refreshed(old(State()), checkAt, updateAt), p)
      ensures State() == AfterHit(Refreshed(old(State()), checkAt, updateAt), p)
    {
      if Elapsed(checkAt, lastUpdate) >= callFrequency {
        Update(updateAt);
      }
      granted := Hit(p);
    }
  }
}
