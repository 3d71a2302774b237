/** Choosing the blinded paths of an offer, src/offers/lnd_requests.rs. */
module PathSelection {
  import opened Common

  datatype Channel = Channel(chanId: nat, remote: PublicKey)

  /** What get_node_info answers for a channel's peer: its feature bits and channels, if it is known. */
  datatype NodeInfo = Unavailable | NoNode | Node(features: set<nat>, channels: seq<nat>)

  const ONION_MESSAGES_REQUIRED := 38
  const ONION_MESSAGES_OPTIONAL := 39

  predicate SupportsOnionMessages(features: set<nat>) {
    ONION_MESSAGES_OPTIONAL in features || ONION_MESSAGES_REQUIRED in features
  }

  /** Bits 38 and 39 are the pair for feature 19, required and optional. */
  lemma OnionMessagesArePair19(features: set<nat>)
    ensures SupportsOnionMessages(features) <==> exists bit :: bit in features && bit / 2 == 19
  {
  }

  /** The peer takes onion messages and is reachable by a channel other than ours. */
  predicate Qualifies(channel: Channel, info: NodeInfo) {
    info.Node? && SupportsOnionMessages(info.features) &&
    exists i :: 0 <= i < |info.channels| && info.channels[i] != channel.chanId
  }

  lemma QualifiesIff(channel: Channel, info: NodeInfo)
    ensures Qualifies(channel, info) <==>
            info.Node? && info.features * {38, 39} != {} && (set c | c in info.channels) - {channel.chanId} != {}
  {
    if info.Node? {
      if Qualifies(channel, info) {
        var i :| 0 <= i < |info.channels| && info.channels[i] != channel.chanId;
        assert info.channels[i] in (set c | c in info.channels) - {channel.chanId};
        assert 38 in info.features * {38, 39} || 39 in info.features * {38, 39};
      }
    }
  }

  function QualifyingPeers(channels: seq<Channel>, infos: seq<NodeInfo>): set<PublicKey>
    requires |infos| == |channels|
  {
    set i | 0 <= i < |channels| && Qualifies(channels[i], infos[i]) :: channels[i].remote
  }

  datatype MessagePath = OneHop | Via(peer: PublicKey)

  function Min(a: nat, b: nat): nat { if a < b then a else b }

  lemma QualifyingNext(channels: seq<Channel>, infos: seq<NodeInfo>, i: nat)
    requires |infos| == |channels| && i < |channels|
    ensures QualifyingPeers(channels[..i + 1], infos[..i + 1]) ==
            QualifyingPeers(channels[..i], infos[..i]) +
            if Qualifies(channels[i], infos[i]) then {channels[i].remote} else {}
  {
  }

  lemma QualifyingPrefix(channels: seq<Channel>, infos: seq<NodeInfo>, n: nat)
    requires |infos| == |channels| && n <= |channels|
    ensures QualifyingPeers(channels[..n], infos[..n]) <= QualifyingPeers(channels, infos)
  {
  }

  lemma {:induction false} SubsetSize(a: set<PublicKey>, b: set<PublicKey>)
    requires a <= b
    ensures |a| <= |b|
  {
    if a == {} {
    } else {
      var x :| x in a;
      SubsetSize(a - {x}, b - {x});
    }
  }

  method OtherChannels(nodeChannels: seq<nat>, chanId: nat) returns (others: seq<nat>)
    ensures others != [] <==> exists i :: 0 <= i < |nodeChannels| && nodeChannels[i] != chanId
  {
    others := [];
    for i := 0 to |nodeChannels|
      invariant others != [] <==> exists j :: 0 <= j < i && nodeChannels[j] != chanId
    {
      if nodeChannels[i] != chanId {
        others := others + [nodeChannels[i]];
      }
    }
  }

  method PeerQualifies(channel: Channel, info: NodeInfo) returns (qualifies: bool)
    ensures qualifies <==> Qualifies(channel, info)
  {
    match info
    case Unavailable => return false;
    case NoNode => return false;
    case Node(features, nodeChannels) =>
      if nodeChannels == [] {
        return false;
      }
      var others := OtherChannels(nodeChannels, channel.chanId);
      return others != [] && SupportsOnionMessages(features);
  }

  /** The peers collected, and how many channels were looked at before there were enough. */
  method SelectIntroNodes(channels: seq<Channel>, infos: seq<NodeInfo>)
    returns (intro: set<PublicKey>, examined: nat)
    requires |infos| == |channels|
    ensures examined <= |channels|
    ensures intro == QualifyingPeers(channels[..examined], infos[..examined])
    ensures |intro| == Min(4, |QualifyingPeers(channels, infos)|)
    ensures examined < |channels| ==> |intro| == 4
  {
    intro := {};
    for i := 0 to |channels|
      invariant intro == QualifyingPeers(channels[..i], infos[..i])
      invariant |intro| <= 4
    {
      if |intro| > 3 {
        QualifyingPrefix(channels, infos, i);
        SubsetSize(intro, QualifyingPeers(channels, infos));
        return intro, i;
      }
      QualifyingNext(channels, infos, i);
      var qualifies := PeerQualifies(channels[i], infos[i]);
      if qualifies {
        intro := intro + {channels[i].remote};
      }
    }
    examined := |channels|;
    assert channels[..examined] == channels && infos[..examined] == infos;
  }

  /** A path through each peer collected, in an order of the set's choosing; to ourselves if there is none. */
  method CreateReplyPaths(intro: set<PublicKey>, canBuild: MessagePath -> bool) returns (r: Result<seq<MessagePath>, ()>)
    ensures r.Ok? <==> if intro == {} then canBuild(OneHop) else forall p :: p in intro ==> canBuild(Via(p))
    ensures r.Ok? ==> if intro == {} then r.value == [OneHop] else IsPathPerPeer(r.value, intro)
    ensures r.Ok? ==> forall i :: 0 <= i < |r.value| ==> canBuild(r.value[i])
  {
    if intro == {} {
      return if canBuild(OneHop) then Ok([OneHop]) else Err(());
    }
    var paths := [];
    var todo := intro;
    while todo != {}
      invariant todo <= intro && IsPathPerPeer(paths, intro - todo)
      invariant forall p :: p in intro - todo ==> canBuild(Via(p))
    {
      var p :| p in todo;
      if !canBuild(Via(p)) {
        return Err(());
      }
      OnePathMore(paths, intro - todo, p);
      assert intro - (todo - {p}) == (intro - todo) + {p};
      paths := paths + [Via(p)];
      todo := todo - {p};
    }
    assert intro - {} == intro;
    return Ok(paths);
  }

  /** Paths through these peers, one each. */
  predicate IsPathPerPeer(paths: seq<MessagePath>, peers: set<PublicKey>) {
    && |paths| == |peers|
    && (forall i :: 0 <= i < |paths| ==> paths[i].Via? && paths[i].peer in peers)
    && (forall i, j :: 0 <= i < j < |paths| ==> paths[i] != paths[j])
  }

  lemma OnePathMore(paths: seq<MessagePath>, peers: set<PublicKey>, p: PublicKey)
    requires IsPathPerPeer(paths, peers) && p !in peers
    ensures IsPathPerPeer(paths + [Via(p)], peers + {p})
  {
  }

  /** The paths the offer is built with: at most the first three. */
  method OfferPaths(channels: seq<Channel>, infos: seq<NodeInfo>, canBuild: MessagePath -> bool)
    returns (r: Result<seq<MessagePath>, ()>)
    requires |infos| == |channels|
    ensures var peers := QualifyingPeers(channels, infos);
      && (r.Ok? ==>
            && |r.value| == (if peers == {} then 1 else Min(3, |peers|))
            && (OneHop in r.value <==> peers == {})
            && (forall i :: 0 <= i < |r.value| && r.value[i].Via? ==> r.value[i].peer in peers)
            && (forall i :: 0 <= i < |r.value| ==> canBuild(r.value[i]))
            && forall i, j :: 0 <= i < j < |r.value| ==> r.value[i] != r.value[j])
      && (r.Err? ==> if peers == {} then !canBuild(OneHop) else exists p :: p in peers && !canBuild(Via(p)))
  {
    var intro, examined := SelectIntroNodes(channels, infos);
    ghost var peers := QualifyingPeers(channels, infos);
    QualifyingPrefix(channels, infos, examined);
    SubsetSize(intro, peers);
    if examined == |channels| {
      assert channels[..examined] == channels && infos[..examined] == infos;
    }
    var all := CreateReplyPaths(intro, canBuild);
    if all.Err? {
      return Err(());
    }
    var paths := [];
    if |all.value| > 0 { paths := paths + [all.value[0]]; }
    if |all.value| > 1 { paths := paths + [all.value[1]]; }
    if |all.value| > 2 { paths := paths + [all.value[2]]; }
    return Ok(paths);
  }
}
