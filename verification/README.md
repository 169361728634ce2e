# Talksy chat core in Dafny

Talksy is a small chat client on a JMS broker. Every participant publishes and
subscribes on one public topic, `TALKSY.PUBLIC`. Each participant also reads a
private queue named `TALKSY.PRIVATE.<username>`. The class `TalksyChat` holds the
logic that matters:

- a message listener that tells presence traffic from chat;
- a set of online users, kept up to date from `join` and `leave` announcements;
- a rule that answers every foreign `join` with a `join` of one's own;
- chat lines formatted as `(privado) sender: text` or `sender: text`;
- the message builders for presence, public chat and private chat;
- `connect`, which ends by announcing a join;
- `close`, a teardown in which each step tolerates failure.

The model turns all of this into pure functions over immutable values:

- `Options`: an optional value, used where Java would hand back `null`.
- `Messages`: destinations, envelopes (destination, text, string properties),
  the three builders, private-queue naming and its inverse. `Classify` says how
  a listener reads a message: not text, presence, or chat.
- `Incoming`: `HandleIncoming`, one delivery as a step. It takes the local
  username, the registered callbacks, the online set, the message, the
  `isPrivate` flag and whether the answering join could be sent. It returns the
  new online set, the messages published, the chat callback (if any) and
  whether the presence callback fired. The module also holds lemmas about
  classification, idempotence, round trips, and a run of many deliveries.
- `Session`: `connect` with an optional failing step and `close` with a set of
  failing steps. Null-checked fields are modelled as present or absent handles.
- `Network`: delivery routing between peers, and two peers exchanging presence
  over the public topic.

Publishing means appending an envelope to an outbox. The two callbacks are
modelled by whether each is registered; the source null-checks both.

### Behaviour worth knowing

- The only presence actions are `join` and `leave`.
- Every foreign `join` is answered with a `join` of one's own. Two peers with
  distinct names therefore echo joins forever, as long as every answering join
  is sent (`Network.JoinEchoNeverQuiesces`). A failed answer is caught and
  logged, and that can end the exchange.
- Self-sent public chat is not suppressed. A user sees their own public lines
  come back.
- `close` can be called again, and it repeats the whole sequence.
- `connect` publishes one `join` and nothing else.

## Model

| member | source | states |
|---|---|---|
| Messages.Prop | src/main/java/com/example/talksy/TalksyChat.java:94-95 | a property read yields a value exactly when the key is set, and then that value; an absent key reads as null |
| Messages.Classify | src/main/java/com/example/talksy/TalksyChat.java:92-97 | a message is ignored iff it is not a text message; it is presence iff its `type` property is `presence`, with the payload as action; otherwise it is chat with the payload as text; the sender is the `sender` property either way |
| Messages.PrivateQueue | src/main/java/com/example/talksy/TalksyChat.java:136 | a user's private destination is a queue whose owner, read back by stripping the `TALKSY.PRIVATE.` prefix, is that user |
| Messages.PrivateQueueInjective | src/main/java/com/example/talksy/TalksyChat.java:72 | two users share a private queue if and only if they are the same user |
| Messages.QueueOwnerExact | src/main/java/com/example/talksy/TalksyChat.java:136 | a destination is owned by a user exactly when it is that user's private queue |
| Messages.PublicTopicIsNotPrivate | src/main/java/com/example/talksy/TalksyChat.java:41-42 | the public topic is no user's private queue |
| Messages.SendPresence | src/main/java/com/example/talksy/TalksyChat.java:145-150 | a presence message goes to the public topic and is read back as presence with the given action and the local user as sender |
| Messages.SendPublic | src/main/java/com/example/talksy/TalksyChat.java:129-133 | a public message goes to the public topic, has no `type` property, and is read back as chat with its text and the local user as sender |
| Messages.SendPrivate | src/main/java/com/example/talksy/TalksyChat.java:135-143 | a private message goes to the addressee's queue, has no `type` property, and is read back as chat with its text and the local user as sender |
| Incoming.FormatLine | src/main/java/com/example/talksy/TalksyChat.java:117-120 | the chat line is the `(privado) ` mark when private, then `sender: `, then the text; the text can be read back from the line; a null sender or text is rendered `null` |
| Incoming.HandleIncoming | src/main/java/com/example/talksy/TalksyChat.java:90-123 | non-text: no effect. Presence join: sender added, nothing else changes; a foreign join is answered by exactly one join from the local user when that answer is sent, and by none when its send fails (the failure is caught); a self join by none. Leave: sender removed, nothing published. Other actions: nothing changes. Every presence message fires the presence callback iff registered and never the chat callback. Chat: set unchanged, nothing published, exactly one chat line iff registered, carrying `isPrivate` and the formatted text, self-sent included |
| Incoming.PresenceOrChat | src/main/java/com/example/talksy/TalksyChat.java:97-122 | with both callbacks registered, the presence callback fires iff the message is presence, a chat line appears iff it is chat, and never both |
| Incoming.PublishesOnlyForForeignJoin | src/main/java/com/example/talksy/TalksyChat.java:99-113 | a delivery publishes something iff it is a presence join from someone other than the local user and the answering join is sent; a failed answer is caught and publishes nothing |
| Incoming.HandleIdempotentOnSet | src/main/java/com/example/talksy/TalksyChat.java:99-113 | delivering the same message twice leaves the same online set as delivering it once (join and leave are idempotent) |
| Incoming.PresenceRoundTrip | src/main/java/com/example/talksy/TalksyChat.java:97-114 | a message built by the presence builder is handled as presence: join adds its sender, leave removes it, any other action keeps the set |
| Incoming.PublicRoundTrip | src/main/java/com/example/talksy/TalksyChat.java:129-133 | a built public message comes back as the line `sender: text`, not private, set unchanged |
| Incoming.PrivateRoundTrip | src/main/java/com/example/talksy/TalksyChat.java:135-143 | a built private message, delivered privately, comes back as `(privado) sender: text` marked private |
| Incoming.OnlineAfterIsLastVerdict | src/main/java/com/example/talksy/TalksyChat.java:99-113 | after any run of deliveries, a user is online iff their last join or leave was a join, or they were online initially and sent neither |
| Session.Connect | src/main/java/com/example/talksy/TalksyChat.java:65-88 | connect returns normally iff no step throws; then every handle exists and exactly one presence join from the local user is published on the public topic; on failure nothing is published; afterwards a handle exists iff it existed before or the call that creates it came before the one that threw |
| Session.Close | src/main/java/com/example/talksy/TalksyChat.java:152-159 | close tries the leave, public consumer, private consumer, public producer, session and connection in that order. A step is attempted exactly when its handle exists (the leave always). A step fails only when it throws, or, for the leave, when the session or producer is missing. The leave is published iff it succeeds |
| Session.TeardownIgnoresFailures | src/main/java/com/example/talksy/TalksyChat.java:153-158 | which teardown steps are attempted does not depend on which steps fail |
| Session.ConnectThenClose | src/main/java/com/example/talksy/TalksyChat.java:152-158 | after a successful connect, close attempts all six steps; with no failures all succeed and one leave is published |
| Session.FailedConnectThenClose | src/main/java/com/example/talksy/TalksyChat.java:152-158 | after a connect on a fresh chat that throws at any step, close attempts the leave and attempts to release exactly the handles whose creating call came before the failure; any attempt may still throw |
| Session.FailedFirstConnectThenClose | src/main/java/com/example/talksy/TalksyChat.java:152-158 | after a connect that fails at creating the connection, close only attempts the leave, which fails, and publishes nothing |
| Network.Route | src/main/java/com/example/talksy/TalksyChat.java:71-82 | a message reaches a peer's public consumer iff it is on the public topic, its private consumer iff it is on that peer's private queue, and nothing else |
| Network.PrivateReachesOnlyAddressee | src/main/java/com/example/talksy/TalksyChat.java:72-82 | a private message is routed to its addressee's private consumer and to nobody else, and shows there as `(privado) sender: text` |
| Network.BroadcastReachesEveryone | src/main/java/com/example/talksy/TalksyChat.java:71-79 | public chat and presence reach every peer's public consumer, the sender's own included |
| Network.DeliverNext | src/main/java/com/example/talksy/TalksyChat.java:78-79 | the oldest public-topic message is handled by both peers' public consumers: each peer's online set is what its handler returns, the rest of the queue keeps its order, and exactly the two peers' replies are appended; every queued message stays on the public topic and handleable |
| Network.DeliverNextKeepsEchoing | src/main/java/com/example/talksy/TalksyChat.java:102-110 | with distinct names, a pending join survives one delivery: the peer not named by it answers with its own join |
| Network.JoinEchoNeverQuiesces | src/main/java/com/example/talksy/TalksyChat.java:102-110 | two peers with distinct names and a join in flight, every answering join being sent, still have one after any number of deliveries; the public topic never goes quiet |
| Network.ConnectStartsEcho | src/main/java/com/example/talksy/TalksyChat.java:86-110 | the join published by a successful connect starts that endless exchange with any other peer |
| Network.FirstJoinIsSeenByBoth | src/main/java/com/example/talksy/TalksyChat.java:99-110 | after the join published by a successful connect is delivered, both peers list the newcomer, and exactly one answer is queued: a join from the other peer |

## Left out

- Broker plumbing: the connection factory, the `talksy-<user>-<UUID>` client ID,
  the acknowledge mode and the persistent/non-persistent delivery modes. These
  are library calls with no logic of their own. `connect` keeps only their
  order and which fields they assign.
- Concurrency: listener threads, the concurrent set and its process-wide
  `static` sharing. Each delivery is one atomic step, and the online set is
  passed explicitly, one per peer.
- The `JMSException` handler of the listener, which reports a transport error
  as a chat line. It deals with transport failure, not protocol logic.
- A presence `join` or `leave` without a `sender` property makes the source
  throw an uncaught NullPointerException. `Incoming.Handleable` makes a present
  sender a precondition for those two actions only.
- `sendPublic` and `sendPrivate` before `connect` (null session) and their
  transport exceptions, which propagate to the caller. The builders model only
  the message produced. Closing the per-call producer in `sendPrivate` is
  omitted.
- A null payload from the local builders. Builders take strings, and only
  inbound messages may carry a null text.
- `getOnlineUsers`, `setOnMessage` and `setOnPresenceUpdate` are plain
  accessors. The set is the step's state, and the callbacks are the
  `Incoming.Listeners` flags.
- `connect` called twice, which overwrites fields and leaks the old handles.
  `Session.Connect` only records that each created handle is present.
- Broker destination matching: wildcard (`*`, `>`) and composite (`,`)
  destination names, and a queue shared by two same-named users that hands
  each message to only one of them. `Network.Route` matches destinations by
  exact name.
- The window, rendering, colours and dialogs of `TalksyUI.java`. That file is
  not part of this model.
