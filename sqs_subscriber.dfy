/**
 * `SQSSubscriber` (sqs-subcriber.go): consumes an SQS queue. Its name is
 * prefixed with the environment outside production; handlers are appended to
 * a chain; each worker long-polls the queue and runs every received message
 * through the chain, deleting it only when no handler failed.
 *
 * Calls into the queue client, the handlers, the log and the clock are
 * recorded as `Event`s, so that what a dispatch or an iteration does can be
 * stated as the sequence of calls it makes.
 */
module SqsSubscriber {
  import opened Wrappers

  const MaxWorkers: int := 100
  /** Most messages one receive call asks for. */
  const MaxMessages: int := 10
  /** Long-poll wait of a receive call, in seconds. */
  const WaitTimeSeconds: int := 20
  /** Visibility timeout a receive call asks for, in seconds. */
  const VisibilityTimeout: int := 30
  /** Pause after a failed receive, in seconds. */
  const ReceiveBackoffSeconds: nat := 1

  // ---------------------------------------------------------------------------
  // Queue-name resolution
  // ---------------------------------------------------------------------------

  /** `isNonProductionEnv`: every APP_ENV except exactly "prod" and "production", the empty one included. */
  function IsNonProductionEnv(env: string): (nonProduction: bool)
    ensures !nonProduction <==> env in {"prod", "production"}
    ensures env == "" || env == "Prod" || env == "PRODUCTION" || env == "staging" ==> nonProduction
  {
    env != "prod" && env != "production"
  }

  /** The queue name `NewSQSSubscriber` looks up: "<env>_<name>" outside production, the name itself in production. */
  function QueueName(env: string, name: string): (q: string)
    ensures |name| <= |q| && q[|q| - |name|..] == name
    ensures IsNonProductionEnv(env) ==> |q| == |env| + 1 + |name| && q[..|env| + 1] == env + "_"
    ensures !IsNonProductionEnv(env) ==> q == name
  {
    if IsNonProductionEnv(env) then
      assert env + "_" + name == (env + "_") + name;
      env + "_" + name
    else name
  }

  /**
   * The two production spellings keep the name; an empty environment still
   * prefixes (with just "_"); the comparison is case-sensitive, so "Prod"
   * prefixes too.
   */
  lemma QueueNameShape(name: string)
    ensures QueueName("prod", name) == name && QueueName("production", name) == name
    ensures QueueName("", name) == "_" + name
    ensures QueueName("Prod", name) == "Prod_" + name
  {
    assert !IsNonProductionEnv("prod") && !IsNonProductionEnv("production");
    assert IsNonProductionEnv("") && IsNonProductionEnv("Prod");
    assert "" + "_" + name == "_" + name;
    assert "Prod" + "_" + name == "Prod_" + name;
  }

  /** Within one environment, distinct queue names resolve to distinct names. */
  lemma {:induction false} QueueNameInjective(env: string, a: string, b: string)
    requires QueueName(env, a) == QueueName(env, b)
    ensures a == b
  {
    if IsNonProductionEnv(env) {
      var n := |env| + 1;
      assert a == (env + "_" + a)[n..];
      assert b == (env + "_" + b)[n..];
    }
  }

  // ---------------------------------------------------------------------------
  // Messages, handlers and the calls a worker makes
  // ---------------------------------------------------------------------------

  /** `types.Message`, reduced to the fields the subscriber uses; each is a string pointer. */
  datatype Message = Message(messageId: Option<string>, receiptHandle: Option<string>, body: Option<string>)

  /** `MessageHandler`: the error it returns for a message (`None` for nil). */
  type Handler = Message -> Option<string>

  /** `sqs.ReceiveMessageInput` as `receiveMessages` fills it in. */
  datatype ReceiveRequest = ReceiveRequest(
    queueUrl: Option<string>,
    attributeNames: seq<string>,
    messageAttributeNames: seq<string>,
    maxNumberOfMessages: int,
    waitTimeSeconds: int,
    visibilityTimeout: int)

  /** `receiveMessages`: all system and message attributes, the fixed batch size, wait and visibility. */
  function ReceiveRequestFor(queueUrl: Option<string>): (r: ReceiveRequest)
    ensures r.queueUrl == queueUrl
    ensures r.attributeNames == ["All"] && r.messageAttributeNames == ["All"]
    ensures r.maxNumberOfMessages == 10 && r.waitTimeSeconds == 20 && r.visibilityTimeout == 30
  {
    ReceiveRequest(queueUrl, ["All"], ["All"], MaxMessages, WaitTimeSeconds, VisibilityTimeout)
  }

  /** The three lines a worker logs. */
  datatype LogEntry =
    | ReceiveFailed(err: string)     // "Error receiving messages: <err>"
    | ProcessingFailed(err: string)  // "Error processing message: <err>"
    | DeleteFailed(err: string)      // "Error deleting message: <err>"

  /** One observable call made by a worker. */
  datatype Event =
    | Received(request: ReceiveRequest)                         // client.ReceiveMessage
    | Handled(index: nat, message: Message)                     // handlers[index](msg)
    | Deleted(queueUrl: Option<string>, receiptHandle: Option<string>)  // client.DeleteMessage
    | Logged(entry: LogEntry)                                   // log.Printf
    | Slept(seconds: nat)                                       // time.Sleep

  // ---------------------------------------------------------------------------
  // Dispatch of one message
  // ---------------------------------------------------------------------------

  /** How a run of the handler chain ended: how many handlers were called, and the first error. */
  datatype ChainResult = ChainResult(called: nat, error: Option<string>)

  /**
   * Runs `handlers[i..]` on `msg` in order, stopping at the first error. With
   * no error every handler was called and each succeeded; with an error, the
   * last handler called returned it and every one before it succeeded.
   */
  function RunChain(handlers: seq<Handler>, msg: Message, i: nat): (r: ChainResult)
    requires i <= |handlers|
    ensures i <= r.called <= |handlers|
    ensures r.error.None? ==>
      r.called == |handlers| && forall j :: i <= j < |handlers| ==> handlers[j](msg).None?
    ensures r.error.Some? ==>
      && i < r.called && handlers[r.called - 1](msg) == r.error
      && forall j :: i <= j < r.called - 1 ==> handlers[j](msg).None?
    decreases |handlers| - i
  {
    if i == |handlers| then ChainResult(i, None)
    else match handlers[i](msg)
      case Some(e) => ChainResult(i + 1, Some(e))
      case None => RunChain(handlers, msg, i + 1)
  }

  /** The calls of handlers 0 to n - 1 on `msg`, in that order. */
  function HandlerCalls(msg: Message, n: nat): seq<Event>
  {
    seq(n, (j: nat) => Handled(j, msg))
  }

  /** True when no handler of the chain fails on `msg`. */
  ghost predicate AllSucceed(handlers: seq<Handler>, msg: Message)
  {
    forall j :: 0 <= j < |handlers| ==> handlers[j](msg).None?
  }

  /**
   * `processMessage`: the chain's calls; then either the log line of the
   * failure, or the delete of the message's receipt handle followed, when the
   * delete fails, by its log line.
   */
  function DispatchEvents(handlers: seq<Handler>, queueUrl: Option<string>, msg: Message, deleteErr: Option<string>): seq<Event>
  {
    var c := RunChain(handlers, msg, 0);
    HandlerCalls(msg, c.called)
    + if c.error.Some? then [Logged(ProcessingFailed(c.error.value))]
      else [Deleted(queueUrl, msg.receiptHandle)] + if deleteErr.Some? then [Logged(DeleteFailed(deleteErr.value))] else []
  }

  /**
   * When every handler succeeds (in particular when there are none), each is
   * called once in registration order and then the message is deleted,
   * exactly once, with its receipt handle; a delete error is only logged.
   */
  lemma DispatchWhenAllSucceed(handlers: seq<Handler>, queueUrl: Option<string>, msg: Message, deleteErr: Option<string>)
    requires AllSucceed(handlers, msg)
    ensures DispatchEvents(handlers, queueUrl, msg, deleteErr)
      == HandlerCalls(msg, |handlers|) + [Deleted(queueUrl, msg.receiptHandle)]
         + if deleteErr.Some? then [Logged(DeleteFailed(deleteErr.value))] else []
    ensures handlers == [] ==> DispatchEvents(handlers, queueUrl, msg, deleteErr)[0] == Deleted(queueUrl, msg.receiptHandle)
  {
  }

  /**
   * When handler `k` is the first to fail, handlers 0 to k are called in
   * order, the failure is logged, and nothing else happens: no later handler
   * runs and the message is not deleted.
   */
  lemma DispatchStopsAtFirstFailure(handlers: seq<Handler>, queueUrl: Option<string>, msg: Message,
                                    deleteErr: Option<string>, k: nat)
    requires k < |handlers| && handlers[k](msg).Some?
    requires forall j :: 0 <= j < k ==> handlers[j](msg).None?
    ensures DispatchEvents(handlers, queueUrl, msg, deleteErr)
      == HandlerCalls(msg, k + 1) + [Logged(ProcessingFailed(handlers[k](msg).value))]
  {
  }

  /** A message is deleted by its dispatch exactly when no handler fails on it. */
  lemma DispatchDeletesIffAllSucceed(handlers: seq<Handler>, queueUrl: Option<string>, msg: Message, deleteErr: Option<string>)
    ensures Deleted(queueUrl, msg.receiptHandle) in DispatchEvents(handlers, queueUrl, msg, deleteErr)
        <==> AllSucceed(handlers, msg)
  {
  }

  /** A delete error changes nothing but one trailing log line: it is neither retried nor reported. */
  lemma DeleteErrorOnlyLogged(handlers: seq<Handler>, queueUrl: Option<string>, msg: Message, err: string)
    ensures DispatchEvents(handlers, queueUrl, msg, Some(err))
      == DispatchEvents(handlers, queueUrl, msg, None)
         + if AllSucceed(handlers, msg) then [Logged(DeleteFailed(err))] else []
  {
  }

  // ---------------------------------------------------------------------------
  // One worker iteration, and a worker over a sequence of iterations
  // ---------------------------------------------------------------------------

  /** The calls made while dispatching a batch: each message in batch order, with its own delete outcome. */
  function BatchEvents(handlers: seq<Handler>, queueUrl: Option<string>, batch: seq<Message>,
                       deleteErr: Message -> Option<string>): seq<Event>
    decreases |batch|
  {
    if batch == [] then []
    else
      var last := batch[|batch| - 1];
      BatchEvents(handlers, queueUrl, batch[..|batch| - 1], deleteErr)
      + DispatchEvents(handlers, queueUrl, last, deleteErr(last))
  }

  /**
   * One pass of `startWorker`'s loop: nothing when cancellation is observed
   * at the top; otherwise a receive, then on error a log line and a
   * one-second sleep, else the dispatch of the whole batch. Cancellation is
   * not looked at again inside the pass.
   */
  function IterationEvents(handlers: seq<Handler>, queueUrl: Option<string>, cancelled: bool,
                           received: Result<seq<Message>, string>, deleteErr: Message -> Option<string>): seq<Event>
  {
    if cancelled then []
    else
      [Received(ReceiveRequestFor(queueUrl))]
      + match received
        case Failure(e) => [Logged(ReceiveFailed(e)), Slept(ReceiveBackoffSeconds)]
        case Success(batch) => BatchEvents(handlers, queueUrl, batch, deleteErr)
  }

  /** What one pass of the worker loop sees: whether the context is done, and what the receive call returns. */
  datatype Round = Round(cancelled: bool, received: Result<seq<Message>, string>)

  /** The calls of a worker over successive passes, up to the first pass that observes cancellation. */
  function WorkerEvents(handlers: seq<Handler>, queueUrl: Option<string>, rounds: seq<Round>,
                        deleteErr: Message -> Option<string>): seq<Event>
    decreases |rounds|
  {
    if rounds == [] || rounds[0].cancelled then []
    else IterationEvents(handlers, queueUrl, false, rounds[0].received, deleteErr)
         + WorkerEvents(handlers, queueUrl, rounds[1..], deleteErr)
  }

  /** The calls among `events` that `keep` accepts, in order. */
  function Select(events: seq<Event>, keep: Event -> bool): seq<Event>
    decreases |events|
  {
    if events == [] then []
    else Select(events[..|events| - 1], keep) + if keep(events[|events| - 1]) then [events[|events| - 1]] else []
  }

  /** Selecting distributes over concatenation. */
  lemma {:induction false} SelectAppend(a: seq<Event>, b: seq<Event>, keep: Event -> bool)
    ensures Select(a + b, keep) == Select(a, keep) + Select(b, keep)
    decreases |b|
  {
    if b != [] {
      var b' := b[..|b| - 1];
      assert (a + b)[..|a + b| - 1] == a + b';
      SelectAppend(a, b', keep);
    } else {
      assert a + b == a;
    }
  }

  /** Selecting from a one- or two-call sequence. */
  lemma SelectShort(x: Event, y: Event, keep: Event -> bool)
    ensures Select([x], keep) == if keep(x) then [x] else []
    ensures Select([x, y], keep) == Select([x], keep) + if keep(y) then [y] else []
  {
  }

  predicate IsDelete(e: Event) { e.Deleted? }

  /** A call of the first handler of the chain. */
  predicate IsFirstHandlerCall(e: Event) { e.Handled? && e.index == 0 }

  /** The messages of a batch on which every handler succeeds, in batch order. */
  ghost function Acknowledged(handlers: seq<Handler>, batch: seq<Message>): seq<Message>
    decreases |batch|
  {
    if batch == [] then []
    else
      var last := batch[|batch| - 1];
      Acknowledged(handlers, batch[..|batch| - 1]) + if AllSucceed(handlers, last) then [last] else []
  }

  /** The delete of one message as the worker issues it. */
  function DeleteOf(queueUrl: Option<string>, m: Message): Event
  {
    Deleted(queueUrl, m.receiptHandle)
  }

  /** The deletes of the given messages, in order. */
  function DeletesOf(queueUrl: Option<string>, ms: seq<Message>): seq<Event>
    decreases |ms|
  {
    if ms == [] then [] else DeletesOf(queueUrl, ms[..|ms| - 1]) + [DeleteOf(queueUrl, ms[|ms| - 1])]
  }

  /** One dispatch issues exactly the delete of its message, or nothing. */
  lemma DispatchDeletions(handlers: seq<Handler>, queueUrl: Option<string>, msg: Message, deleteErr: Option<string>)
    ensures Select(DispatchEvents(handlers, queueUrl, msg, deleteErr), IsDelete)
      == if AllSucceed(handlers, msg) then [DeleteOf(queueUrl, msg)] else []
  {
    var c := RunChain(handlers, msg, 0);
    var calls := HandlerCalls(msg, c.called);
    assert Select(calls, IsDelete) == [] by {
      CallsHaveNoDeletions(msg, c.called);
    }
    var tail := DispatchEvents(handlers, queueUrl, msg, deleteErr)[|calls|..];
    assert DispatchEvents(handlers, queueUrl, msg, deleteErr) == calls + tail;
    SelectAppend(calls, tail, IsDelete);
    TailSelections(handlers, queueUrl, msg, deleteErr, tail);
  }

  /** What follows the handler calls of a dispatch: one delete or none, and no handler call. */
  lemma TailSelections(handlers: seq<Handler>, queueUrl: Option<string>, msg: Message, deleteErr: Option<string>,
                       tail: seq<Event>)
    requires tail == DispatchEvents(handlers, queueUrl, msg, deleteErr)[RunChain(handlers, msg, 0).called..]
    ensures Select(tail, IsDelete) == if RunChain(handlers, msg, 0).error.None? then [DeleteOf(queueUrl, msg)] else []
    ensures Select(tail, IsFirstHandlerCall) == []
  {
    var c := RunChain(handlers, msg, 0);
    var d := DeleteOf(queueUrl, msg);
    if c.error.Some? {
      SelectShort(Logged(ProcessingFailed(c.error.value)), d, IsDelete);
      SelectShort(Logged(ProcessingFailed(c.error.value)), d, IsFirstHandlerCall);
    } else if deleteErr.Some? {
      SelectShort(d, Logged(DeleteFailed(deleteErr.value)), IsDelete);
      SelectShort(d, Logged(DeleteFailed(deleteErr.value)), IsFirstHandlerCall);
    } else {
      SelectShort(d, d, IsDelete);
      SelectShort(d, d, IsFirstHandlerCall);
    }
  }

  /** Handler calls contain no delete. */
  lemma {:induction false} CallsHaveNoDeletions(msg: Message, n: nat)
    ensures Select(HandlerCalls(msg, n), IsDelete) == []
  {
    if n > 0 {
      assert HandlerCalls(msg, n)[..n - 1] == HandlerCalls(msg, n - 1);
      CallsHaveNoDeletions(msg, n - 1);
    }
  }

  /**
   * Dispatching a batch deletes exactly the messages on which every handler
   * succeeded, each once, in batch order: every message of the batch is
   * dispatched, and none is skipped.
   */
  lemma {:induction false} BatchDeletions(handlers: seq<Handler>, queueUrl: Option<string>, batch: seq<Message>,
                                          deleteErr: Message -> Option<string>)
    ensures Select(BatchEvents(handlers, queueUrl, batch, deleteErr), IsDelete) == DeletesOf(queueUrl, Acknowledged(handlers, batch))
    decreases |batch|
  {
    if batch != [] {
      var init := batch[..|batch| - 1];
      var last := batch[|batch| - 1];
      var acked := Acknowledged(handlers, init);
      BatchDeletions(handlers, queueUrl, init, deleteErr);
      SelectAppend(BatchEvents(handlers, queueUrl, init, deleteErr), DispatchEvents(handlers, queueUrl, last, deleteErr(last)), IsDelete);
      DispatchDeletions(handlers, queueUrl, last, deleteErr(last));
      if AllSucceed(handlers, last) {
        assert (acked + [last])[..|acked|] == acked;
      } else {
        assert acked + [] == acked;
      }
    }
  }

  /** The calls of the first handler on the given messages, in order. */
  function FirstHandlerCalls(ms: seq<Message>): seq<Event>
    decreases |ms|
  {
    if ms == [] then [] else FirstHandlerCalls(ms[..|ms| - 1]) + [Handled(0, ms[|ms| - 1])]
  }

  /** Among the handler calls on one message, exactly one is of the first handler, when any handler is called. */
  lemma {:induction false} CallsOfFirstHandler(msg: Message, n: nat)
    ensures Select(HandlerCalls(msg, n), IsFirstHandlerCall) == if n == 0 then [] else [Handled(0, msg)]
  {
    if n > 0 {
      assert HandlerCalls(msg, n)[..n - 1] == HandlerCalls(msg, n - 1);
      CallsOfFirstHandler(msg, n - 1);
    }
  }

  /** With a non-empty chain, a dispatch calls the first handler exactly once, on its message. */
  lemma DispatchCallsFirstHandlerOnce(handlers: seq<Handler>, queueUrl: Option<string>, msg: Message, deleteErr: Option<string>)
    requires |handlers| > 0
    ensures Select(DispatchEvents(handlers, queueUrl, msg, deleteErr), IsFirstHandlerCall) == [Handled(0, msg)]
  {
    var c := RunChain(handlers, msg, 0);
    var calls := HandlerCalls(msg, c.called);
    CallsOfFirstHandler(msg, c.called);
    var tail := DispatchEvents(handlers, queueUrl, msg, deleteErr)[|calls|..];
    assert DispatchEvents(handlers, queueUrl, msg, deleteErr) == calls + tail;
    SelectAppend(calls, tail, IsFirstHandlerCall);
    TailSelections(handlers, queueUrl, msg, deleteErr, tail);
  }

  /**
   * Every message of a received batch is dispatched, once, in batch order,
   * whatever the handlers return: the first handler is called on exactly the
   * batch's messages in their order.
   */
  lemma {:induction false} BatchDispatchesInOrder(handlers: seq<Handler>, queueUrl: Option<string>, batch: seq<Message>,
                                                  deleteErr: Message -> Option<string>)
    requires |handlers| > 0
    ensures Select(BatchEvents(handlers, queueUrl, batch, deleteErr), IsFirstHandlerCall) == FirstHandlerCalls(batch)
    decreases |batch|
  {
    if batch != [] {
      var init := batch[..|batch| - 1];
      var last := batch[|batch| - 1];
      BatchDispatchesInOrder(handlers, queueUrl, init, deleteErr);
      SelectAppend(BatchEvents(handlers, queueUrl, init, deleteErr), DispatchEvents(handlers, queueUrl, last, deleteErr(last)),
                   IsFirstHandlerCall);
      DispatchCallsFirstHandlerOnce(handlers, queueUrl, last, deleteErr(last));
    }
  }

  /** With no handlers every message is acknowledged. */
  lemma {:induction false} EmptyChainAcknowledgesAll(batch: seq<Message>)
    ensures Acknowledged([], batch) == batch
    decreases |batch|
  {
    if batch != [] {
      EmptyChainAcknowledgesAll(batch[..|batch| - 1]);
    }
  }

  /**
   * With no handlers, dispatching a batch deletes every message of it, once
   * each, in batch order.
   */
  lemma EmptyChainDeletesWholeBatch(queueUrl: Option<string>, batch: seq<Message>, deleteErr: Message -> Option<string>)
    ensures Select(BatchEvents([], queueUrl, batch, deleteErr), IsDelete) == DeletesOf(queueUrl, batch)
  {
    BatchDeletions([], queueUrl, batch, deleteErr);
    EmptyChainAcknowledgesAll(batch);
  }

  /** Every receive a worker issues asks for at most 10 messages, waits 20 seconds and hides them for 30. */
  lemma {:induction false} WorkerReceivesWithFixedLimits(handlers: seq<Handler>, queueUrl: Option<string>,
                                                         rounds: seq<Round>, deleteErr: Message -> Option<string>)
    ensures forall e :: e in WorkerEvents(handlers, queueUrl, rounds, deleteErr) && e.Received? ==>
      && e.request.queueUrl == queueUrl
      && e.request.maxNumberOfMessages == MaxMessages == 10
      && e.request.waitTimeSeconds == WaitTimeSeconds == 20
      && e.request.visibilityTimeout == VisibilityTimeout == 30
    decreases |rounds|
  {
    if rounds != [] && !rounds[0].cancelled {
      WorkerReceivesWithFixedLimits(handlers, queueUrl, rounds[1..], deleteErr);
      if rounds[0].received.Success? {
        BatchHasNoReceives(handlers, queueUrl, rounds[0].received.value, deleteErr);
      }
    }
  }

  /** Dispatching a batch calls no receive. */
  lemma {:induction false} BatchHasNoReceives(handlers: seq<Handler>, queueUrl: Option<string>, batch: seq<Message>,
                                              deleteErr: Message -> Option<string>)
    ensures forall e :: e in BatchEvents(handlers, queueUrl, batch, deleteErr) ==> !e.Received?
    decreases |batch|
  {
    if batch != [] {
      BatchHasNoReceives(handlers, queueUrl, batch[..|batch| - 1], deleteErr);
    }
  }

  /**
   * A receive that fails twice and then succeeds: the worker logs and sleeps
   * one second after each failure, retries, and then dispatches the batch.
   */
  lemma RetriesAfterReceiveErrors(handlers: seq<Handler>, queueUrl: Option<string>, e1: string, e2: string,
                                  batch: seq<Message>, deleteErr: Message -> Option<string>)
    ensures var receive := Received(ReceiveRequestFor(queueUrl));
      WorkerEvents(handlers, queueUrl,
                   [Round(false, Failure(e1)), Round(false, Failure(e2)), Round(false, Success(batch))], deleteErr)
      == [receive, Logged(ReceiveFailed(e1)), Slept(1), receive, Logged(ReceiveFailed(e2)), Slept(1), receive]
         + BatchEvents(handlers, queueUrl, batch, deleteErr)
  {
    var receive := Received(ReceiveRequestFor(queueUrl));
    var r3 := [Round(false, Success(batch))];
    var r2 := [Round(false, Failure(e2))] + r3;
    var r1 := [Round(false, Failure(e1))] + r2;
    assert r3[1..] == [];
    assert WorkerEvents(handlers, queueUrl, r3, deleteErr) == [receive] + BatchEvents(handlers, queueUrl, batch, deleteErr);
    assert r2[1..] == r3;
    assert WorkerEvents(handlers, queueUrl, r2, deleteErr)
      == [receive, Logged(ReceiveFailed(e2)), Slept(1)] + WorkerEvents(handlers, queueUrl, r3, deleteErr);
    assert r1[1..] == r2;
    assert WorkerEvents(handlers, queueUrl, r1, deleteErr)
      == [receive, Logged(ReceiveFailed(e1)), Slept(1)] + WorkerEvents(handlers, queueUrl, r2, deleteErr);
    assert r1 == [Round(false, Failure(e1)), Round(false, Failure(e2)), Round(false, Success(batch))];
  }

  // ---------------------------------------------------------------------------
  // The subscriber object
  // ---------------------------------------------------------------------------

  class SqsSubscriber {
    var queueUrl: Option<string>
    var workerCount: int
    var handlers: seq<Handler>

    /** The struct `NewSQSSubscriber` returns: no handlers yet, the worker count as given, unchecked. */
    constructor (queueUrl: Option<string>, workerCount: int)
      ensures this.queueUrl == queueUrl && this.workerCount == workerCount && handlers == []
    {
      this.queueUrl := queueUrl;
      this.workerCount := workerCount;
      handlers := [];
    }

    /** `AddHandler`: appends one handler, keeping the others and their order. */
    method AddHandler(handler: Handler)
      modifies this`handlers
      ensures handlers == old(handlers) + [handler]
    {
      handlers := handlers + [handler];
    }

    /** `processMessage`: runs the chain until the first error, and deletes the message only if there was none. */
    method ProcessMessage(msg: Message, deleteErr: Option<string>) returns (events: seq<Event>)
      ensures events == DispatchEvents(handlers, queueUrl, msg, deleteErr)
    {
      var chain := handlers;
      var processError: Option<string> := None;
      var i := 0;
      events := [];
      while i < |chain|
        invariant 0 <= i <= |chain|
        invariant RunChain(chain, msg, i) == RunChain(chain, msg, 0)
        invariant events == HandlerCalls(msg, i)
      {
        var err := chain[i](msg);
        assert HandlerCalls(msg, i) + [Handled(i, msg)] == HandlerCalls(msg, i + 1);
        events := events + [Handled(i, msg)];
        if err.Some? {
          processError := err;
          events := events + [Logged(ProcessingFailed(err.value))];
          break;
        }
        i := i + 1;
      }
      if processError == None {
        events := events + [Deleted(queueUrl, msg.receiptHandle)];
        if deleteErr.Some? {
          events := events + [Logged(DeleteFailed(deleteErr.value))];
        }
      }
    }

    /**
     * One pass of `startWorker`: returns `stop` when cancellation is observed
     * at the top; otherwise receives, and either logs and sleeps on error or
     * processes every message of the batch in order.
     */
    method PollOnce(cancelled: bool, received: Result<seq<Message>, string>, deleteErr: Message -> Option<string>)
      returns (events: seq<Event>, stop: bool)
      ensures stop == cancelled
      ensures events == IterationEvents(handlers, queueUrl, cancelled, received, deleteErr)
    {
      if cancelled {
        return [], true;
      }
      events := [Received(ReceiveRequestFor(queueUrl))];
      stop := false;
      match received
      case Failure(e) =>
        events := events + [Logged(ReceiveFailed(e)), Slept(ReceiveBackoffSeconds)];
      case Success(batch) =>
        for i := 0 to |batch|
          invariant events == [Received(ReceiveRequestFor(queueUrl))] + BatchEvents(handlers, queueUrl, batch[..i], deleteErr)
        {
          var dispatched := ProcessMessage(batch[i], deleteErr(batch[i]));
          assert batch[..i + 1][..i] == batch[..i];
          events := events + dispatched;
        }
        assert batch[..|batch|] == batch;
    }

    /**
     * `startWorker` driven by a finite sequence of passes: it stops at the
     * first pass that observes cancellation and at no other; receive errors,
     * handler errors and delete errors never end it.
     */
    method RunWorker(rounds: seq<Round>, deleteErr: Message -> Option<string>) returns (events: seq<Event>, exited: bool)
      ensures exited <==> exists i :: 0 <= i < |rounds| && rounds[i].cancelled
      ensures events == WorkerEvents(handlers, queueUrl, rounds, deleteErr)
    {
      var hs, url := handlers, queueUrl;
      events := [];
      exited := false;
      var i := 0;
      while i < |rounds|
        invariant 0 <= i <= |rounds|
        invariant forall j :: 0 <= j < i ==> !rounds[j].cancelled
        invariant events + WorkerEvents(hs, url, rounds[i..], deleteErr) == WorkerEvents(hs, url, rounds, deleteErr)
      {
        var pass, stop := PollOnce(rounds[i].cancelled, rounds[i].received, deleteErr);
        WorkerStep(hs, url, rounds, i, deleteErr);
        if stop {
          exited := true;
          assert events + [] == events;
          return;
        }
        assert events + (pass + WorkerEvents(hs, url, rounds[i + 1..], deleteErr))
            == (events + pass) + WorkerEvents(hs, url, rounds[i + 1..], deleteErr);
        events := events + pass;
        i := i + 1;
      }
      assert rounds[i..] == [];
      assert events + [] == events;
    }
  }

  /** Unfolds the worker's calls from pass `i`: nothing when it observes cancellation, else that pass and the rest. */
  lemma WorkerStep(handlers: seq<Handler>, queueUrl: Option<string>, rounds: seq<Round>, i: nat,
                   deleteErr: Message -> Option<string>)
    requires i < |rounds|
    ensures rounds[i].cancelled ==> WorkerEvents(handlers, queueUrl, rounds[i..], deleteErr) == []
    ensures !rounds[i].cancelled ==>
      WorkerEvents(handlers, queueUrl, rounds[i..], deleteErr)
      == IterationEvents(handlers, queueUrl, false, rounds[i].received, deleteErr)
         + WorkerEvents(handlers, queueUrl, rounds[i + 1..], deleteErr)
  {
  }

  /**
   * `NewSQSSubscriber`: loads the SDK configuration (which may fail), then
   * looks up the queue URL under the resolved queue name and the account ID;
   * fails with either step's error, else returns a subscriber with no
   * handlers and the worker count as given, with no bound checked.
   */
  method NewSqsSubscriber(queueName: string, workerCount: int, appEnv: string, accountId: string,
                          configErr: Option<string>,
                          getQueueUrl: (string, string) -> Result<Option<string>, string>)
    returns (r: Result<SqsSubscriber, string>)
    ensures configErr.Some? ==> r == Failure(configErr.value)
    ensures configErr.None? ==> (r.Failure? <==> getQueueUrl(accountId, QueueName(appEnv, queueName)).Failure?)
    ensures configErr.None? && r.Failure? ==> r.error == getQueueUrl(accountId, QueueName(appEnv, queueName)).error
    ensures r.Success? ==>
      && fresh(r.value)
      && r.value.queueUrl == getQueueUrl(accountId, QueueName(appEnv, queueName)).value
      && r.value.workerCount == workerCount
      && r.value.handlers == []
  {
    if configErr.Some? {
      return Failure(configErr.value);
    }
    var name := queueName;
    if IsNonProductionEnv(appEnv) {
      name := appEnv + "_" + queueName;
    }
    match getQueueUrl(accountId, name)
    case Failure(e) =>
      r := Failure(e);
    case Success(url) =>
      var s := new SqsSubscriber(url, workerCount);
      r := Success(s);
  }
}
