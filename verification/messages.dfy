/**
 * The wire format of Talksy: destinations, the text messages the chat
 * publishes, and how an inbound message is classified as presence or chat.
 *
 * The transport is abstracted to an outbox of `Envelope`s: a destination,
 * a text payload and the string properties set on the message.
 */
module Messages {
  import opened Options

  const PublicTopic: string := "TALKSY.PUBLIC"
  const PrivatePrefix: string := "TALKSY.PRIVATE."
  const PresenceType: string := "presence"

  /** Names of the string properties the chat sets and reads. */
  const TypeKey: string := "type"
  const SenderKey: string := "sender"

  /** The two presence actions the chat understands. */
  const Join: string := "join"
  const Leave: string := "leave"

  /** A topic is shared by every subscriber; a queue is read by one consumer. */
  datatype Destination = Topic(name: string) | Queue(name: string)

  /** One published message: where it goes, its text and its properties. */
  datatype Envelope = Envelope(dest: Destination, text: string, props: map<string, string>)

  /**
   * An inbound message as a listener sees it. Only text messages are
   * handled; the text itself may be null.
   */
  datatype Message =
    | TextMessage(text: Option<string>, props: map<string, string>)
    | OtherMessage

  /** How the chat reads a message: ignored, presence control, or chat text. */
  datatype Kind =
    | NotText
    | Presence(action: Option<string>, sender: Option<string>)
    | Chat(sender: Option<string>, text: Option<string>)

  /** A string property, or None where the transport would answer null. */
  function Prop(props: map<string, string>, key: string): (r: Option<string>)
    ensures r.Some? <==> key in props
    ensures r.Some? ==> r.value == props[key]
  {
    if key in props then Some(props[key]) else None
  }

  /** What a consumer receives when `e` is delivered to it. */
  function Deliver(e: Envelope): Message
  {
    TextMessage(Some(e.text), e.props)
  }

  /** A message is presence traffic exactly when its `type` property is "presence". */
  function Classify(m: Message): (k: Kind)
    ensures k == NotText <==> m.OtherMessage?
    ensures k.Presence? <==> m.TextMessage? && TypeKey in m.props && m.props[TypeKey] == PresenceType
    ensures k.Presence? ==> k.action == m.text && k.sender == Prop(m.props, SenderKey)
    ensures k.Chat? ==> k.text == m.text && k.sender == Prop(m.props, SenderKey)
  {
    match m
    case OtherMessage => NotText
    case TextMessage(text, props) =>
      if Prop(props, TypeKey) == Some(PresenceType) then Presence(text, Prop(props, SenderKey))
      else Chat(Prop(props, SenderKey), text)
  }

  /** The owner of a private queue: the name after the private prefix. */
  function QueueOwner(d: Destination): Option<string>
  {
    if d.Queue? && PrivatePrefix <= d.name then Some(d.name[|PrivatePrefix|..]) else None
  }

  /** The private queue of `user`: the private prefix followed by the user name. */
  function PrivateQueue(user: string): (d: Destination)
    ensures d.Queue?
    ensures QueueOwner(d) == Some(user)
  {
    var d := Queue(PrivatePrefix + user);
    assert d.name[|PrivatePrefix|..] == user;
    d
  }

  /** Presence announcements go to the public topic with type and sender set. */
  function SendPresence(username: string, action: string): (e: Envelope)
    ensures e.dest == Topic(PublicTopic)
    ensures Classify(Deliver(e)) == Presence(Some(action), Some(username))
  {
    Envelope(Topic(PublicTopic), action, map[TypeKey := PresenceType, SenderKey := username])
  }

  /** Public chat goes to the public topic with only the sender set. */
  function SendPublic(username: string, text: string): (e: Envelope)
    ensures e.dest == Topic(PublicTopic)
    ensures TypeKey !in e.props
    ensures Classify(Deliver(e)) == Chat(Some(username), Some(text))
  {
    Envelope(Topic(PublicTopic), text, map[SenderKey := username])
  }

  /** Private chat goes to the recipient's queue with only the sender set. */
  function SendPrivate(username: string, toUser: string, text: string): (e: Envelope)
    ensures QueueOwner(e.dest) == Some(toUser)
    ensures TypeKey !in e.props
    ensures Classify(Deliver(e)) == Chat(Some(username), Some(text))
  {
    Envelope(PrivateQueue(toUser), text, map[SenderKey := username])
  }

  /** Distinct users never share a private queue. */
  lemma PrivateQueueInjective(u: string, v: string)
    ensures PrivateQueue(u) == PrivateQueue(v) <==> u == v
  {
  }

  /** A queue has an owner exactly when it is that owner's private queue. */
  lemma QueueOwnerExact(d: Destination, user: string)
    ensures QueueOwner(d) == Some(user) <==> d == PrivateQueue(user)
  {
  }

  /** The public topic is not anyone's private queue. */
  lemma PublicTopicIsNotPrivate(user: string)
    ensures Topic(PublicTopic) != PrivateQueue(user)
    ensures QueueOwner(Topic(PublicTopic)) == None
  {
  }
}
