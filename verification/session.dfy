/**
 * The chat's lifecycle: `connect` builds the transport handles one after
 * another and ends by announcing a join; `close` announces a leave and
 * releases every handle it has, each step guarded and its failure ignored.
 *
 * A handle is recorded only as present or absent (the source's field is
 * non-null or null). Transport failures are parameters: `connect` is told
 * which step throws, `close` which steps throw.
 */
module Session {
  import opened Options
  import opened Messages

  /** Which of the chat's transport fields are non-null. */
  datatype Handles = Handles(
    connection: bool,
    session: bool,
    publicProducer: bool,
    publicConsumer: bool,
    privateConsumer: bool)

  const NoHandles: Handles := Handles(false, false, false, false, false)
  const AllHandles: Handles := Handles(true, true, true, true, true)

  /** The calls `connect` makes, in program order. */
  datatype ConnectStep =
    | CreateConnection | SetClientId | CreateSession | CreateTopic | CreatePrivateQueue
    | CreateProducer | SetDeliveryMode | CreatePublicConsumer | SetPublicListener
    | CreatePrivateConsumer | SetPrivateListener | StartConnection | AnnounceJoin

  function ConnectRank(s: ConnectStep): nat
  {
    match s
    case CreateConnection => 0
    case SetClientId => 1
    case CreateSession => 2
    case CreateTopic => 3
    case CreatePrivateQueue => 4
    case CreateProducer => 5
    case SetDeliveryMode => 6
    case CreatePublicConsumer => 7
    case SetPublicListener => 8
    case CreatePrivateConsumer => 9
    case SetPrivateListener => 10
    case StartConnection => 11
    case AnnounceJoin => 12
  }

  /** Did step `s` complete, when `failAt` (if any) is the step that threw? */
  predicate Completed(s: ConnectStep, failAt: Option<ConnectStep>)
  {
    failAt.None? || ConnectRank(s) < ConnectRank(failAt.value)
  }

  /** The outcome of `connect`: the handles afterwards, what it published, and whether it returned normally. */
  datatype ConnectResult = ConnectResult(handles: Handles, published: seq<Envelope>, ok: bool)

  /** Every handle present in `h` is present in `h'`. */
  predicate Grows(h: Handles, h': Handles)
  {
    && (h.connection ==> h'.connection)
    && (h.session ==> h'.session)
    && (h.publicProducer ==> h'.publicProducer)
    && (h.publicConsumer ==> h'.publicConsumer)
    && (h.privateConsumer ==> h'.privateConsumer)
  }

  /**
   * `connect`: each field is assigned once its creating call returns; the
   * first call that throws ends the method with the exception. The last
   * call publishes one presence join.
   */
  function Connect(username: string, h: Handles, failAt: Option<ConnectStep>): (r: ConnectResult)
    ensures r.ok <==> failAt.None?
    ensures r.ok ==> r.handles == AllHandles
    ensures r.ok ==>
      (&& |r.published| == 1
       && r.published[0].dest == Topic(PublicTopic)
       && Classify(Deliver(r.published[0])) == Presence(Some(Join), Some(username)))
    ensures !r.ok ==> r.published == []
    ensures Grows(h, r.handles)
    // a handle exists afterwards iff it existed before or its creating call came before the one that threw
    ensures forall s :: s != AnnounceLeave ==>
      (Guard(r.handles, s) <==> Guard(h, s) || failAt.None? || ConnectRank(Creator(s)) < ConnectRank(failAt.value))
  {
    var handles := Handles(
      h.connection || Completed(CreateConnection, failAt),
      h.session || Completed(CreateSession, failAt),
      h.publicProducer || Completed(CreateProducer, failAt),
      h.publicConsumer || Completed(CreatePublicConsumer, failAt),
      h.privateConsumer || Completed(CreatePrivateConsumer, failAt));
    var ok := Completed(AnnounceJoin, failAt);
    ConnectResult(handles, if ok then [SendPresence(username, Join)] else [], ok)
  }

  /** The attempts `close` makes, in program order. */
  datatype TeardownStep =
    | AnnounceLeave | ClosePublicConsumer | ClosePrivateConsumer
    | ClosePublicProducer | CloseSession | CloseConnection

  const TeardownOrder: seq<TeardownStep> :=
    [AnnounceLeave, ClosePublicConsumer, ClosePrivateConsumer, ClosePublicProducer, CloseSession, CloseConnection]

  /** Whether the null-check in front of step `s` lets it run. The leave announcement has none. */
  predicate Guard(h: Handles, s: TeardownStep)
  {
    match s
    case AnnounceLeave => true
    case ClosePublicConsumer => h.publicConsumer
    case ClosePrivateConsumer => h.privateConsumer
    case ClosePublicProducer => h.publicProducer
    case CloseSession => h.session
    case CloseConnection => h.connection
  }

  /** The call of `connect` that creates the handle released by teardown step `s`. */
  function Creator(s: TeardownStep): ConnectStep
    requires s != AnnounceLeave
  {
    match s
    case ClosePublicConsumer => CreatePublicConsumer
    case ClosePrivateConsumer => CreatePrivateConsumer
    case ClosePublicProducer => CreateProducer
    case CloseSession => CreateSession
    case CloseConnection => CreateConnection
  }

  /** What one try block of `close` came to. */
  datatype Outcome = Skipped | Succeeded | Failed

  /** `outcomes[i]` is what became of `TeardownOrder[i]`. */
  datatype CloseResult = CloseResult(outcomes: seq<Outcome>, published: seq<Envelope>)

  /**
   * Whether announcing the leave succeeds: it needs the session and the
   * public producer (a null one throws) and the send itself must not fail.
   */
  predicate LeaveSucceeds(h: Handles, fails: set<TeardownStep>)
  {
    h.session && h.publicProducer && AnnounceLeave !in fails
  }

  /** Whether attempted step `s` returns normally. */
  predicate Succeeds(h: Handles, fails: set<TeardownStep>, s: TeardownStep)
  {
    if s == AnnounceLeave then LeaveSucceeds(h, fails) else s !in fails
  }

  /** A release guarded by a null-check whose exception is swallowed. */
  function Release(present: bool, throws: bool): Outcome
  {
    if !present then Skipped else if throws then Failed else Succeeded
  }

  /** The six try blocks of `close`, each guarded by its null-check where the source has one. */
  function Outcomes(h: Handles, fails: set<TeardownStep>): (o: seq<Outcome>)
    ensures |o| == |TeardownOrder|
    ensures forall i :: 0 <= i < |o| ==>
      o[i] == Release(Guard(h, TeardownOrder[i]), !Succeeds(h, fails, TeardownOrder[i]))
  {
    var o := [
      Release(true, !LeaveSucceeds(h, fails)),
      Release(h.publicConsumer, ClosePublicConsumer in fails),
      Release(h.privateConsumer, ClosePrivateConsumer in fails),
      Release(h.publicProducer, ClosePublicProducer in fails),
      Release(h.session, CloseSession in fails),
      Release(h.connection, CloseConnection in fails)];
    forall i | 0 <= i < |o|
      ensures o[i] == Release(Guard(h, TeardownOrder[i]), !Succeeds(h, fails, TeardownOrder[i]))
    {
      if i == 0 {} else if i == 1 {} else if i == 2 {} else if i == 3 {} else if i == 4 {} else {}
    }
    o
  }

  /**
   * `close`: announce the leave, then close the public consumer, the
   * private consumer, the public producer, the session and the connection,
   * each in its own try block that swallows any exception.
   */
  function Close(username: string, h: Handles, fails: set<TeardownStep>): (r: CloseResult)
    ensures |r.outcomes| == |TeardownOrder|
    // a step is attempted exactly when its handle exists (the leave always), whatever else fails
    ensures forall i :: 0 <= i < |r.outcomes| ==> (r.outcomes[i] != Skipped <==> Guard(h, TeardownOrder[i]))
    // an attempted step fails only if it throws (or, for the leave, its handles are missing)
    ensures forall i :: 0 <= i < |r.outcomes| && r.outcomes[i] != Skipped ==>
      (r.outcomes[i] == Succeeded <==> Succeeds(h, fails, TeardownOrder[i]))
    // the only thing published is the leave, and only when it succeeds
    ensures LeaveSucceeds(h, fails) ==>
      (&& |r.published| == 1
       && r.published[0].dest == Topic(PublicTopic)
       && Classify(Deliver(r.published[0])) == Presence(Some(Leave), Some(username)))
    ensures !LeaveSucceeds(h, fails) ==> r.published == []
  {
    var leaveOk := LeaveSucceeds(h, fails);
    var outcomes := Outcomes(h, fails);
    CloseResult(outcomes, if leaveOk then [SendPresence(username, Leave)] else [])
  }

  /**
   * Failures never stop the teardown: which steps are attempted depends
   * only on which handles exist, not on which steps throw.
   */
  lemma TeardownIgnoresFailures(username: string, h: Handles, fails1: set<TeardownStep>, fails2: set<TeardownStep>)
    ensures var r1 := Close(username, h, fails1).outcomes;
      var r2 := Close(username, h, fails2).outcomes;
      forall i :: 0 <= i < |TeardownOrder| ==> (r1[i] == Skipped <==> r2[i] == Skipped)
  {
  }

  /** After a successful connect, close attempts all six steps; with no failures all succeed and the leave is announced. */
  lemma ConnectThenClose(username: string, h: Handles, fails: set<TeardownStep>)
    ensures var r := Close(username, Connect(username, h, None).handles, fails);
      && (forall i :: 0 <= i < |r.outcomes| ==> r.outcomes[i] != Skipped)
      && (fails == {} ==> (forall i :: 0 <= i < |r.outcomes| ==> r.outcomes[i] == Succeeded) && |r.published| == 1)
  {
  }

  /**
   * After a connect that throws at `failAt` on a fresh chat, close still
   * attempts the leave, and attempts to release exactly the handles whose
   * creating call came before the failure; any attempt may still throw.
   */
  lemma FailedConnectThenClose(username: string, failAt: ConnectStep, fails: set<TeardownStep>)
    ensures var r := Close(username, Connect(username, NoHandles, Some(failAt)).handles, fails);
      forall i :: 1 <= i < |r.outcomes| ==>
        (r.outcomes[i] != Skipped <==> ConnectRank(Creator(TeardownOrder[i])) < ConnectRank(failAt))
    ensures var r := Close(username, Connect(username, NoHandles, Some(failAt)).handles, fails);
      r.outcomes[0] != Skipped
  {
  }

  /** A connect that fails before the connection exists leaves close nothing to release; the leave is attempted and fails. */
  lemma FailedFirstConnectThenClose(username: string, fails: set<TeardownStep>)
    ensures Close(username, Connect(username, NoHandles, Some(CreateConnection)).handles, fails)
      == CloseResult([Failed, Skipped, Skipped, Skipped, Skipped, Skipped], [])
  {
  }
}
