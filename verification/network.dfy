/**
 * Several chats on one broker: where a published message is delivered,
 * and what two peers do with each other's presence joins.
 *
 * Each peer owns its own online set. Every connected peer consumes the
 * public topic (so a peer also hears its own broadcasts) and its own
 * private queue.
 */
module Network {
  import opened Options
  import opened Messages
  import opened Incoming
  import Session

  /**
   * How peer `name` receives `e`: through its public consumer (Some(false)),
   * through its private consumer (Some(true)), or not at all (None).
   */
  function Route(e: Envelope, name: string): (r: Option<bool>)
    ensures r == Some(false) <==> e.dest == Topic(PublicTopic)
    ensures r == Some(true) <==> e.dest == PrivateQueue(name)
    ensures r == None <==> e.dest != Topic(PublicTopic) && e.dest != PrivateQueue(name)
  {
    QueueOwnerExact(e.dest, name);
    PublicTopicIsNotPrivate(name);
    if e.dest == Topic(PublicTopic) then Some(false)
    else if QueueOwner(e.dest) == Some(name) then Some(true)
    else None
  }

  /**
   * A private message reaches its addressee and nobody else, through the
   * private consumer; there it yields the marked line with sender and text.
   */
  lemma PrivateReachesOnlyAddressee(from: string, to: string, text: string, peer: string, online: set<string>)
    ensures Route(SendPrivate(from, to, text), peer) == (if peer == to then Some(true) else None)
    ensures peer == to ==>
      var r := HandleIncoming(peer, Listeners(true, true), online, Deliver(SendPrivate(from, to, text)), true, true);
      r.chat == Some(ChatLine(PrivateMark + from + ": " + text, true)) && r.online == online
  {
  }

  /** Public chat and presence reach every peer, the sender included, through the public consumer. */
  lemma BroadcastReachesEveryone(username: string, text: string, action: string, peer: string)
    ensures Route(SendPublic(username, text), peer) == Some(false)
    ensures Route(SendPresence(username, action), peer) == Some(false)
  {
  }

  // ---------------------------------------------------------------------
  // Two peers and the public topic

  datatype Peer = Peer(name: string, online: set<string>)

  /** Two peers and the public-topic messages published but not yet delivered, oldest first. */
  datatype Pair = Pair(a: Peer, b: Peer, inflight: seq<Envelope>)

  /** Every in-flight message is on the public topic and can be handled by a listener. */
  predicate Deliverable(p: Pair)
  {
    forall i :: 0 <= i < |p.inflight| ==>
      p.inflight[i].dest == Topic(PublicTopic) && Handleable(Deliver(p.inflight[i]))
  }

  /**
   * The oldest in-flight message is delivered to both peers' public
   * consumers; whatever they publish in turn joins the end of the queue.
   * Callbacks are registered and every send succeeds.
   */
  function DeliverNext(p: Pair): (p': Pair)
    requires Deliverable(p) && p.inflight != []
    ensures Deliverable(p')
    ensures p'.a.name == p.a.name && p'.b.name == p.b.name
    ensures |p'.inflight| >= |p.inflight| - 1 && p'.inflight[..|p.inflight| - 1] == p.inflight[1..]
    // each peer's public consumer handles the oldest message; their replies are queued a's first
    ensures var ea := HandleIncoming(p.a.name, Listeners(true, true), p.a.online, Deliver(p.inflight[0]), false, true);
      var eb := HandleIncoming(p.b.name, Listeners(true, true), p.b.online, Deliver(p.inflight[0]), false, true);
      && p'.a.online == ea.online && p'.b.online == eb.online
      && p'.inflight[|p.inflight| - 1..] == ea.published + eb.published
  {
    var m := Deliver(p.inflight[0]);
    var ea := HandleIncoming(p.a.name, Listeners(true, true), p.a.online, m, false, true);
    var eb := HandleIncoming(p.b.name, Listeners(true, true), p.b.online, m, false, true);
    var inflight := p.inflight[1..] + ea.published + eb.published;
    forall i | 0 <= i < |inflight|
      ensures inflight[i].dest == Topic(PublicTopic) && Handleable(Deliver(inflight[i]))
    {
      if i < |p.inflight| - 1 {
        assert inflight[i] == p.inflight[i + 1];
      } else if i < |p.inflight| - 1 + |ea.published| {
        assert inflight[i] == ea.published[i - (|p.inflight| - 1)];
      } else {
        assert inflight[i] == eb.published[i - (|p.inflight| - 1) - |ea.published|];
      }
    }
    Pair(Peer(p.a.name, ea.online), Peer(p.b.name, eb.online), inflight)
  }

  /** The pair after `n` deliveries, or earlier if the topic falls quiet. */
  function Run(p: Pair, n: nat): Pair
    requires Deliverable(p)
    decreases n
  {
    if n == 0 || p.inflight == [] then p else Run(DeliverNext(p), n - 1)
  }

  /** `m` is a presence join that names its sender. */
  predicate IsJoin(m: Message)
  {
    Classify(m).Presence? && Classify(m).action == Some(Join) && Classify(m).sender.Some?
  }

  /** A presence join is waiting on the public topic. */
  predicate JoinInFlight(p: Pair)
  {
    exists i :: 0 <= i < |p.inflight| && IsJoin(Deliver(p.inflight[i]))
  }

  /** Two peers with distinct names and a join among their in-flight messages. */
  predicate Echoing(p: Pair)
  {
    p.a.name != p.b.name && Deliverable(p) && JoinInFlight(p)
  }

  /**
   * One delivery keeps a join in flight: either the pending join is not
   * yet delivered, or it is, and the peer whose name differs from its
   * sender answers with a join of its own.
   */
  lemma DeliverNextKeepsEchoing(p: Pair)
    requires Echoing(p)
    ensures Echoing(DeliverNext(p))
  {
    var i :| 0 <= i < |p.inflight| && IsJoin(Deliver(p.inflight[i]));
    var s := Classify(Deliver(p.inflight[i])).sender.value;
    assert IsPresenceFrom(Deliver(p.inflight[i]), Join, s);
    var p' := DeliverNext(p);
    if i > 0 {
      assert p'.inflight[i - 1] == p.inflight[i];
    } else {
      var m := Deliver(p.inflight[0]);
      var ea := HandleIncoming(p.a.name, Listeners(true, true), p.a.online, m, false, true);
      var eb := HandleIncoming(p.b.name, Listeners(true, true), p.b.online, m, false, true);
      assert p'.inflight == p.inflight[1..] + ea.published + eb.published;
      if s != p.a.name {
        assert |ea.published| == 1 && AllJoinsFrom(ea.published, p.a.name);
        assert p'.inflight[|p.inflight| - 1] == ea.published[0];
        assert IsPresenceFrom(Deliver(p'.inflight[|p.inflight| - 1]), Join, p.a.name);
      } else {
        assert |eb.published| == 1 && AllJoinsFrom(eb.published, p.b.name);
        var k := |p.inflight| - 1 + |ea.published|;
        assert p'.inflight[k] == eb.published[0];
        assert IsPresenceFrom(Deliver(p'.inflight[k]), Join, p.b.name);
      }
    }
  }

  /**
   * The join echo never dies down: two peers with distinct names and a
   * join in flight, every answering join being sent, still have one after
   * any number of deliveries, so the public topic is never empty.
   */
  lemma {:induction false} JoinEchoNeverQuiesces(p: Pair, n: nat)
    requires Echoing(p)
    ensures Echoing(Run(p, n))
    ensures Run(p, n).inflight != []
    decreases n
  {
    if n > 0 {
      DeliverNextKeepsEchoing(p);
      JoinEchoNeverQuiesces(DeliverNext(p), n - 1);
    }
  }

  /** The join a peer publishes when it connects starts the endless echo with any other peer. */
  lemma ConnectStartsEcho(
    newcomer: string, other: string, h: Session.Handles,
    onlineNew: set<string>, onlineOther: set<string>, n: nat)
    requires newcomer != other
    ensures var p := Pair(Peer(newcomer, onlineNew), Peer(other, onlineOther), Session.Connect(newcomer, h, None).published);
      Deliverable(p) && Run(p, n).inflight != []
  {
    var p := Pair(Peer(newcomer, onlineNew), Peer(other, onlineOther), Session.Connect(newcomer, h, None).published);
    assert IsPresenceFrom(Deliver(p.inflight[0]), Join, newcomer);
    JoinEchoNeverQuiesces(p, n);
  }

  /** After the newcomer's join reaches both peers, each lists the newcomer. */
  lemma FirstJoinIsSeenByBoth(
    newcomer: string, other: string, h: Session.Handles, onlineNew: set<string>, onlineOther: set<string>)
    requires newcomer != other
    ensures var p' := DeliverNext(Pair(Peer(newcomer, onlineNew), Peer(other, onlineOther), Session.Connect(newcomer, h, None).published));
      && p'.a.online == onlineNew + {newcomer}
      && p'.b.online == onlineOther + {newcomer}
      && |p'.inflight| == 1
      && IsPresenceFrom(Deliver(p'.inflight[0]), Join, other)
  {
  }
}
