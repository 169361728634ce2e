/**
 * The chat's message listener as a pure step: one inbound message, the
 * local user name and the current online set in; the new online set, the
 * presence messages to publish and the callbacks fired out.
 */
module Incoming {
  import opened Options
  import opened Messages

  /** Which callbacks the caller has registered (the source null-checks both). */
  datatype Listeners = Listeners(onMessage: bool, onPresenceUpdate: bool)

  /** The arguments handed to the chat callback. */
  datatype ChatLine = ChatLine(line: string, isPrivate: bool)

  /** Everything one delivery does. */
  datatype Effects = Effects(
    online: set<string>,
    published: seq<Envelope>,
    chat: Option<ChatLine>,
    presenceFired: bool)

  /** The prefix that marks a line delivered through the private queue. */
  const PrivateMark: string := "(privado) "

  /** Java's rendering of a possibly-null string inside `String.format`. */
  function JavaString(s: Option<string>): string
  {
    match s
    case Some(v) => v
    case None => "null"
  }

  function Mark(isPrivate: bool): string
  {
    if isPrivate then PrivateMark else ""
  }

  /** Reads the text back out of a chat line, given who sent it and where it came from. */
  function TextOf(line: string, sender: string, isPrivate: bool): Option<string>
  {
    var head := Mark(isPrivate) + sender + ": ";
    if head <= line then Some(line[|head|..]) else None
  }

  /** The chat line: the private mark when private, then `sender: text`. */
  function FormatLine(sender: Option<string>, text: Option<string>, isPrivate: bool): (line: string)
    ensures TextOf(line, JavaString(sender), isPrivate) == Some(JavaString(text))
    ensures isPrivate ==> PrivateMark <= line
  {
    var head := Mark(isPrivate) + JavaString(sender) + ": ";
    var line := head + JavaString(text);
    assert line[..|head|] == head;
    assert line[|head|..] == JavaString(text);
    assert isPrivate ==> line[..|PrivateMark|] == PrivateMark;
    line
  }

  /**
   * The messages the listener can process without a NullPointerException:
   * a presence join or leave must name its sender, since the sender is
   * added to or removed from a set that refuses null. Every other message,
   * including presence with another action, is accepted as it is.
   */
  predicate Handleable(m: Message)
  {
    match m
    case OtherMessage => true
    case TextMessage(text, props) =>
      Prop(props, TypeKey) == Some(PresenceType) && (text == Some(Join) || text == Some(Leave))
      ==> SenderKey in props
  }

  /** Is `m` a presence `action` announced by `sender`? */
  predicate IsPresenceFrom(m: Message, action: string, sender: string)
  {
    Classify(m) == Presence(Some(action), Some(sender))
  }

  /** Every envelope in `es` announces `username` joining on the public topic. */
  predicate AllJoinsFrom(es: seq<Envelope>, username: string)
  {
    forall i :: 0 <= i < |es| ==>
      es[i].dest == Topic(PublicTopic) && IsPresenceFrom(Deliver(es[i]), Join, username)
  }

  /**
   * One delivery. `isPrivate` says which consumer received the message;
   * `replyOk` says whether the answering join is sent (its failure is
   * caught and only logged).
   */
  function HandleIncoming(
    username: string, listeners: Listeners, online: set<string>,
    m: Message, isPrivate: bool, replyOk: bool): (r: Effects)
    requires Handleable(m)
    // the only thing ever published is a join from the local user on the public topic
    ensures AllJoinsFrom(r.published, username)
    // non-text messages do nothing at all
    ensures Classify(m) == NotText ==> r == Effects(online, [], None, false)
    // presence: never a chat line, the presence callback fires iff registered
    ensures Classify(m).Presence? ==> r.chat == None && r.presenceFired == listeners.onPresenceUpdate
    // presence join: the sender is added, a foreign join is answered by one join of our own
    ensures forall s :: IsPresenceFrom(m, Join, s) ==>
      && r.online == online + {s}
      && |r.published| == (if s != username && replyOk then 1 else 0)
    // presence leave: the sender is removed, nothing published
    ensures forall s :: IsPresenceFrom(m, Leave, s) ==> r.online == online - {s} && r.published == []
    // presence with another action: nothing changes but the callback
    ensures Classify(m).Presence? && Classify(m).action != Some(Join) && Classify(m).action != Some(Leave) ==>
      r.online == online && r.published == []
    // chat: set untouched, nothing published, one chat line iff registered, self-sent included
    ensures Classify(m).Chat? ==>
      && r.online == online && r.published == [] && !r.presenceFired
      && (r.chat.Some? <==> listeners.onMessage)
      && (r.chat.Some? ==>
            && r.chat.value.isPrivate == isPrivate
            && TextOf(r.chat.value.line, JavaString(Classify(m).sender), isPrivate) == Some(JavaString(Classify(m).text)))
  {
    match m
    case OtherMessage => Effects(online, [], None, false)
    case TextMessage(text, props) =>
      var kind := Prop(props, TypeKey);
      var sender := Prop(props, SenderKey);
      if kind == Some(PresenceType) then
        var action := text;
        if action == Some(Join) then
          var reply := if sender.value != username && replyOk then [SendPresence(username, Join)] else [];
          Effects(online + {sender.value}, reply, None, listeners.onPresenceUpdate)
        else if action == Some(Leave) then
          Effects(online - {sender.value}, [], None, listeners.onPresenceUpdate)
        else
          Effects(online, [], None, listeners.onPresenceUpdate)
      else
        var line := FormatLine(sender, text, isPrivate);
        Effects(online, [], if listeners.onMessage then Some(ChatLine(line, isPrivate)) else None, false)
  }

  /**
   * Presence and chat are told apart by the `type` property alone: a
   * delivery fires the presence callback or yields a chat line, never
   * both, and which one is decided by the classification.
   */
  lemma PresenceOrChat(
    username: string, listeners: Listeners, online: set<string>,
    m: Message, isPrivate: bool, replyOk: bool)
    requires Handleable(m)
    requires listeners == Listeners(true, true)
    ensures var r := HandleIncoming(username, listeners, online, m, isPrivate, replyOk);
      && (r.presenceFired <==> Classify(m).Presence?)
      && (r.chat.Some? <==> Classify(m).Chat?)
      && !(r.presenceFired && r.chat.Some?)
  {
  }

  /**
   * Only a foreign join changes the outbox, and only when the answering
   * join is sent; nothing else publishes.
   */
  lemma PublishesOnlyForForeignJoin(
    username: string, listeners: Listeners, online: set<string>,
    m: Message, isPrivate: bool, replyOk: bool)
    requires Handleable(m)
    ensures var r := HandleIncoming(username, listeners, online, m, isPrivate, replyOk);
      r.published != [] <==> replyOk && exists s :: s != username && IsPresenceFrom(m, Join, s)
  {
    var r := HandleIncoming(username, listeners, online, m, isPrivate, replyOk);
    if r.published != [] {
      assert Classify(m).Presence? && Classify(m).action == Some(Join);
      var s := Classify(m).sender.value;
      assert s != username && IsPresenceFrom(m, Join, s);
    }
  }

  /** Delivering the same message twice leaves the same online set as delivering it once. */
  lemma HandleIdempotentOnSet(
    username: string, listeners: Listeners, online: set<string>,
    m: Message, isPrivate: bool, replyOk: bool)
    requires Handleable(m)
    ensures var once := HandleIncoming(username, listeners, online, m, isPrivate, replyOk).online;
      HandleIncoming(username, listeners, once, m, isPrivate, replyOk).online == once
  {
  }

  /** A presence announcement built by the chat is handled as that action by that sender. */
  lemma PresenceRoundTrip(
    username: string, sender: string, action: string, listeners: Listeners,
    online: set<string>, isPrivate: bool, replyOk: bool)
    ensures Handleable(Deliver(SendPresence(sender, action)))
    ensures var r := HandleIncoming(username, listeners, online, Deliver(SendPresence(sender, action)), isPrivate, replyOk);
      && r.chat == None
      && r.presenceFired == listeners.onPresenceUpdate
      && r.online == (if action == Join then online + {sender}
                      else if action == Leave then online - {sender}
                      else online)
  {
  }

  /** A public chat message built by the chat comes back as a public chat line with its text. */
  lemma PublicRoundTrip(username: string, sender: string, text: string, online: set<string>)
    ensures Handleable(Deliver(SendPublic(sender, text)))
    ensures var r := HandleIncoming(username, Listeners(true, true), online, Deliver(SendPublic(sender, text)), false, true);
      && r.online == online && r.published == [] && !r.presenceFired
      && r.chat == Some(ChatLine(sender + ": " + text, false))
  {
    assert Mark(false) + sender + ": " + text == sender + ": " + text;
  }

  /** A private chat message comes back marked private, with its sender and text. */
  lemma PrivateRoundTrip(username: string, sender: string, toUser: string, text: string, online: set<string>)
    ensures Handleable(Deliver(SendPrivate(sender, toUser, text)))
    ensures var r := HandleIncoming(username, Listeners(true, true), online, Deliver(SendPrivate(sender, toUser, text)), true, true);
      && r.online == online && r.published == [] && !r.presenceFired
      && r.chat == Some(ChatLine(PrivateMark + sender + ": " + text, true))
  {
  }

  // ---------------------------------------------------------------------
  // Many deliveries in a row

  /** One delivery: a message and whether it came through the private queue. */
  datatype Delivery = Delivery(msg: Message, isPrivate: bool)

  predicate AllHandleable(ds: seq<Delivery>)
  {
    forall i :: 0 <= i < |ds| ==> Handleable(ds[i].msg)
  }

  /** The online set after processing `ds` in order, every reply succeeding. */
  function OnlineAfter(username: string, online: set<string>, ds: seq<Delivery>): set<string>
    requires AllHandleable(ds)
    decreases |ds|
  {
    if ds == [] then online
    else
      var before := OnlineAfter(username, online, ds[..|ds| - 1]);
      var last := ds[|ds| - 1];
      HandleIncoming(username, Listeners(true, true), before, last.msg, last.isPrivate, true).online
  }

  /** The verdict `m` passes on `u`: joined, left, or nothing said. */
  function Verdict(m: Message, u: string): Option<bool>
  {
    if IsPresenceFrom(m, Join, u) then Some(true)
    else if IsPresenceFrom(m, Leave, u) then Some(false)
    else None
  }

  /** The verdict of the last join or leave from `u` in `ds`, if any. */
  function LastVerdict(ds: seq<Delivery>, u: string): Option<bool>
    decreases |ds|
  {
    if ds == [] then None
    else if Verdict(ds[|ds| - 1].msg, u).Some? then Verdict(ds[|ds| - 1].msg, u)
    else LastVerdict(ds[..|ds| - 1], u)
  }

  /**
   * Membership is decided by the last presence join or leave of that
   * user; a user with no such message keeps their initial membership.
   */
  lemma {:induction false} OnlineAfterIsLastVerdict(
    username: string, online: set<string>, ds: seq<Delivery>, u: string)
    requires AllHandleable(ds)
    ensures u in OnlineAfter(username, online, ds) <==>
      (if LastVerdict(ds, u).Some? then LastVerdict(ds, u).value else u in online)
    decreases |ds|
  {
    if ds != [] {
      var init := ds[..|ds| - 1];
      assert AllHandleable(init) by {
        forall i | 0 <= i < |init| ensures Handleable(init[i].msg) {
          assert init[i] == ds[i];
        }
      }
      OnlineAfterIsLastVerdict(username, online, init, u);
      var last := ds[|ds| - 1];
      assert Handleable(last.msg);
      match Classify(last.msg)
      case NotText =>
      case Chat(_, _) =>
      case Presence(action, sender) =>
        if action == Some(Join) || action == Some(Leave) {
          assert sender.Some?;
          if action == Some(Join) {
            assert IsPresenceFrom(last.msg, Join, sender.value);
          } else {
            assert IsPresenceFrom(last.msg, Leave, sender.value);
          }
        }
    }
  }
}
