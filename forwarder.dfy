/**
 * The outbound relay to the control-plane server (modules/message_forwarder.py).
 *
 * Producers append envelopes to an in-memory FIFO queue; a worker cuts a batch
 * of at most ten envelopes from the head and posts it. The reply decides the
 * batch's fate: 200 delivers it, a 4xx status drops it, any other status or a
 * transport error puts the whole batch back at the TAIL of the queue, and any
 * other failure drops it.
 *
 * The HTTP reply is an input of the model (`HttpOutcome`); clock readings are
 * passed in as `nowMillis`.
 */
module Forwarder {
  import opened Common

  /** Largest batch the worker cuts from the queue in one cycle. */
  const BatchLimit: nat := 10

  /** One queued message: `{'source', 'type', 'timestamp', 'data'}`. */
  datatype Envelope = Envelope(source: string, kind: string, timestamp: int, data: Json)

  /** What `session.post` produced: a reply with a status code, a
      `requests.RequestException`, or any other exception. */
  datatype HttpOutcome = Response(status: int) | NetworkError | OtherError

  /** What happens to a posted batch. */
  datatype Fate = Delivered | Rejected | Requeued | Dropped

  /** A command the control plane asks the bot to run. */
  datatype Command = Command(id: string, kind: string, params: Json)

  /** One element of the `commands` list a poll returns: a command object, or
      a value that is not a JSON object (a string, a number, a list, ...). */
  datatype Polled = CommandObject(command: Command) | NotAnObject

  /** An acknowledgement posted for a command: its id and the result of running it. */
  datatype Ack = Ack(commandId: string, result: Json)

  function FateOf(outcome: HttpOutcome): (f: Fate)
    ensures f == Delivered <==> outcome == Response(200)
    ensures f == Rejected <==> outcome.Response? && 400 <= outcome.status < 500
    ensures f == Requeued <==> outcome == NetworkError
                               || (outcome.Response? && outcome.status != 200 && !(400 <= outcome.status < 500))
    ensures f == Dropped <==> outcome == OtherError
  {
    match outcome
    case Response(s) => if s == 200 then Delivered else if 400 <= s < 500 then Rejected else Requeued
    case NetworkError => Requeued
    case OtherError => Dropped
  }

  // ---------------------------------------------------------------------------
  // The queue, one worker cycle at a time

  function BatchSize(n: nat): (k: nat)
    ensures k <= n && k <= BatchLimit
    ensures n > 0 ==> k > 0
  {
    if n < BatchLimit then n else BatchLimit
  }

  /** The batch one cycle cuts from the head of `q`. */
  function BatchOf(q: seq<Envelope>): (b: seq<Envelope>)
    ensures |b| == BatchSize(|q|)
    ensures b == q[..|b|]
  {
    q[..BatchSize(|q|)]
  }

  /** The queue after one cycle whose post ended with `outcome`. */
  function AfterCycle(q: seq<Envelope>, outcome: HttpOutcome): seq<Envelope>
  {
    var b := BatchOf(q);
    var rest := q[|b|..];
    if b != [] && FateOf(outcome) == Requeued then rest + b else rest
  }

  /** The envelopes one cycle hands to the control plane successfully. */
  function DeliveredIn(q: seq<Envelope>, outcome: HttpOutcome): seq<Envelope>
  {
    if FateOf(outcome) == Delivered then BatchOf(q) else []
  }

  /** The queue after one cycle per outcome, oldest outcome first. */
  function AfterCycles(q: seq<Envelope>, outcomes: seq<HttpOutcome>): seq<Envelope>
    decreases |outcomes|
  {
    if outcomes == [] then q
    else AfterCycle(AfterCycles(q, outcomes[..|outcomes| - 1]), outcomes[|outcomes| - 1])
  }

  /** Everything delivered over those cycles, in delivery order. */
  function DeliveredOver(q: seq<Envelope>, outcomes: seq<HttpOutcome>): seq<Envelope>
    decreases |outcomes|
  {
    if outcomes == [] then []
    else
      var before := outcomes[..|outcomes| - 1];
      DeliveredOver(q, before) + DeliveredIn(AfterCycles(q, before), outcomes[|outcomes| - 1])
  }

  /** One cycle loses or duplicates nothing: what leaves the queue is exactly
      the batch, and only when its fate is final. */
  lemma CycleConserves(q: seq<Envelope>, outcome: HttpOutcome)
    ensures var b := BatchOf(q);
            multiset(AfterCycle(q, outcome))
            + (if FateOf(outcome) == Requeued then multiset{} else multiset(b))
            == multiset(q)
  {
    var b := BatchOf(q);
    assert q == b + q[|b|..];
  }

  /** A delivered batch is never queued again. */
  lemma DeliveredLeavesQueue(q: seq<Envelope>)
    ensures AfterCycle(q, Response(200)) == q[BatchSize(|q|)..]
    ensures BatchOf(q) + AfterCycle(q, Response(200)) == q
  {
  }

  /** A 4xx reply discards the batch: the queue keeps only what was behind it. */
  lemma RejectedIsDiscarded(q: seq<Envelope>, status: int)
    requires 400 <= status < 500
    ensures AfterCycle(q, Response(status)) == q[BatchSize(|q|)..]
  {
  }

  /** A retryable failure moves the batch, in its own order, behind everything
      that was queued after it; with more than a batch queued, the next cycle
      therefore posts different envelopes first. */
  lemma RequeueGoesToTail(q: seq<Envelope>, outcome: HttpOutcome)
    requires FateOf(outcome) == Requeued
    requires |q| > BatchLimit
    ensures AfterCycle(q, outcome) == q[BatchLimit..] + q[..BatchLimit]
    ensures BatchOf(AfterCycle(q, outcome))[0] == q[BatchLimit]
  {
  }

  predicate AllDelivered(outcomes: seq<HttpOutcome>)
  {
    forall i :: 0 <= i < |outcomes| ==> outcomes[i] == Response(200)
  }

  /** With every post answered 200, n cycles deliver the oldest min(|q|, 10n)
      envelopes in enqueue order and leave the rest queued. */
  lemma {:induction false} DeliveryIsFifo(q: seq<Envelope>, outcomes: seq<HttpOutcome>)
    requires AllDelivered(outcomes)
    ensures var m := Min(|q|, BatchLimit * |outcomes|);
            DeliveredOver(q, outcomes) == q[..m] && AfterCycles(q, outcomes) == q[m..]
    decreases |outcomes|
  {
    if outcomes != [] {
      var before := outcomes[..|outcomes| - 1];
      DeliveryIsFifo(q, before);
      var m0 := Min(|q|, BatchLimit * |before|);
      var rest := q[m0..];
      assert AfterCycles(q, before) == rest;
      var k := BatchSize(|rest|);
      assert m0 + k == Min(|q|, BatchLimit * |outcomes|);
      assert BatchOf(rest) == q[m0..m0 + k];
      assert q[..m0] + q[m0..m0 + k] == q[..m0 + k];
    }
  }

  /** Fifteen envelopes and all posts answered 200: the first batch is the
      oldest ten, the second the remaining five, and then the queue is empty. */
  lemma FifteenInTwoBatches(q: seq<Envelope>, outcomes: seq<HttpOutcome>)
    requires |q| == 15 && |outcomes| == 2 && AllDelivered(outcomes)
    ensures BatchOf(q) == q[..10]
    ensures BatchOf(AfterCycle(q, outcomes[0])) == q[10..]
    ensures AfterCycles(q, outcomes) == [] && DeliveredOver(q, outcomes) == q
  {
    DeliveryIsFifo(q, outcomes);
  }

  /** ceil(N / 10) cycles answered 200 empty a queue of N envelopes. */
  lemma DrainsInCeilCycles(q: seq<Envelope>, outcomes: seq<HttpOutcome>)
    requires AllDelivered(outcomes)
    requires |outcomes| * BatchLimit >= |q|
    ensures AfterCycles(q, outcomes) == [] && DeliveredOver(q, outcomes) == q
  {
    DeliveryIsFifo(q, outcomes);
  }

  // ---------------------------------------------------------------------------
  // The forwarder object

  /** The payload of `forward_chat_message`. An empty message id is replaced
      by `zhilian_<now>`. */
  function ChatMessageData(senderId: string, recipientId: string, content: string,
                           messageId: string, chatId: Option<string>, nowMillis: nat): Json
  {
    JObject(map[
      "message_id" := JStr(if messageId != "" then messageId else "zhilian_" + NatToString(nowMillis)),
      "chat_id" := (match chatId case Some(c) => JStr(c) case None => JNull),
      "sender_id" := JStr(senderId),
      "recipient_id" := JStr(recipientId),
      "content" := JStr(content),
      "platform" := JStr("zhilian"),
      "timestamp" := JInt(nowMillis)])
  }

  /** The chat payload carries exactly these fields, its recipient and content, and a non-empty message id. */
  lemma ChatMessageFields(senderId: string, recipientId: string, content: string,
                          messageId: string, chatId: Option<string>, nowMillis: nat)
    ensures var d := ChatMessageData(senderId, recipientId, content, messageId, chatId, nowMillis);
            d.JObject? && d.fields.Keys == {"message_id", "chat_id", "sender_id", "recipient_id", "content", "platform", "timestamp"}
            && d.fields["recipient_id"] == JStr(recipientId) && d.fields["content"] == JStr(content)
            && d.fields["chat_id"] == (if chatId.Some? then JStr(chatId.value) else JNull)
            && d.fields["message_id"].JStr? && d.fields["message_id"].s != ""
            && (messageId != "" ==> d.fields["message_id"] == JStr(messageId))
  {
  }

  /** The payload of `forward_interaction_event`; absent details become `{}`. */
  function InteractionEventData(eventType: string, candidateId: string,
                                details: Option<map<string, Json>>, nowMillis: nat): (d: Json)
    ensures d.JObject? && d.fields.Keys == {"event_type", "candidate_id", "platform", "timestamp", "details"}
    ensures d.fields["event_type"] == JStr(eventType)
    ensures d.fields["details"] == JObject(if details.Some? then details.value else map[])
  {
    JObject(map[
      "event_type" := JStr(eventType),
      "candidate_id" := JStr(candidateId),
      "platform" := JStr("zhilian"),
      "timestamp" := JInt(nowMillis),
      "details" := JObject(match details case Some(m) => m case None => map[])])
  }

  class MessageForwarder {
    /** The control-plane base URL; empty when it is not configured. */
    const centerServerUrl: string
    var isRunning: bool
    /** Whether a worker thread has been started. */
    var workerStarted: bool
    var messageQueue: seq<Envelope>
    /** The acknowledgements posted so far, oldest first. */
    var acknowledgements: seq<Ack>

    /** The running flag and the worker flag still have their values of the pre-state. */
    twostate predicate FlagsUnchanged()
      reads this
    {
      isRunning == old(isRunning) && workerStarted == old(workerStarted)
    }

    constructor (url: string)
      ensures centerServerUrl == url
      ensures !isRunning && !workerStarted && messageQueue == [] && acknowledgements == []
    {
      centerServerUrl := url;
      isRunning := false;
      workerStarted := false;
      messageQueue := [];
      acknowledgements := [];
    }

    /** Starts the worker, unless it is already running or no URL is configured. */
    method Start()
      modifies this`isRunning, this`workerStarted
      ensures if old(isRunning) || centerServerUrl == ""
              then isRunning == old(isRunning) && workerStarted == old(workerStarted)
              else isRunning && workerStarted
    {
      if isRunning {
        return;
      }
      if centerServerUrl == "" {
        return;
      }
      isRunning := true;
      workerStarted := true;
    }

    /** Clears the running flag; queued envelopes stay where they are. */
    method Stop()
      modifies this`isRunning
      ensures !isRunning
    {
      isRunning := false;
    }

    /** `forward_message`: appends one envelope at the tail and reports success. */
    method ForwardMessage(data: Json, kind: string, nowMillis: nat) returns (ok: bool)
      modifies this`messageQueue
      ensures ok
      ensures messageQueue == old(messageQueue) + [Envelope("zhilian", kind, nowMillis, data)]
    {
      messageQueue := messageQueue + [Envelope("zhilian", kind, nowMillis, data)];
      ok := true;
    }

    method ForwardChatMessage(senderId: string, recipientId: string, content: string,
                              messageId: string, chatId: Option<string>, nowMillis: nat) returns (ok: bool)
      modifies this`messageQueue
      ensures ok
      ensures messageQueue == old(messageQueue)
              + [Envelope("zhilian", "chat_message", nowMillis,
                          ChatMessageData(senderId, recipientId, content, messageId, chatId, nowMillis))]
    {
      ok := ForwardMessage(ChatMessageData(senderId, recipientId, content, messageId, chatId, nowMillis),
                           "chat_message", nowMillis);
    }

    method ForwardCandidateInfo(candidate: Json, nowMillis: nat) returns (ok: bool)
      modifies this`messageQueue
      ensures ok
      ensures messageQueue == old(messageQueue) + [Envelope("zhilian", "candidate_info", nowMillis, candidate)]
    {
      ok := ForwardMessage(candidate, "candidate_info", nowMillis);
    }

    method ForwardInteractionEvent(eventType: string, candidateId: string,
                                   details: Option<map<string, Json>>, nowMillis: nat) returns (ok: bool)
      modifies this`messageQueue
      ensures ok
      ensures messageQueue == old(messageQueue)
              + [Envelope("zhilian", "interaction_event", nowMillis,
                          InteractionEventData(eventType, candidateId, details, nowMillis))]
    {
      ok := ForwardMessage(InteractionEventData(eventType, candidateId, details, nowMillis),
                           "interaction_event", nowMillis);
    }

    /** The locked section of the worker loop: cut up to ten envelopes from the head. */
    method TakeBatch() returns (batch: seq<Envelope>)
      modifies this`messageQueue
      ensures batch == BatchOf(old(messageQueue))
      ensures batch + messageQueue == old(messageQueue)
      ensures old(messageQueue) != [] ==> 1 <= |batch| <= BatchLimit
    {
      batch := [];
      if messageQueue != [] {
        var size := if BatchLimit < |messageQueue| then BatchLimit else |messageQueue|;
        batch := messageQueue[..size];
        messageQueue := messageQueue[size..];
      }
    }

    /** `_send_batch_messages`: posts `batch` unless it is empty and applies the
        reply; `posted` says whether a request was made. */
    method SendBatch(batch: seq<Envelope>, outcome: HttpOutcome) returns (ok: bool, posted: bool)
      modifies this`messageQueue
      ensures posted <==> batch != []
      ensures ok <==> batch == [] || FateOf(outcome) == Delivered
      ensures messageQueue == old(messageQueue)
              + (if posted && FateOf(outcome) == Requeued then batch else [])
    {
      if batch == [] {
        return true, false;
      }
      posted := true;
      match outcome
      case Response(status) =>
        if status == 200 {
          ok := true;
        } else if 400 <= status < 500 {
          ok := false;
        } else {
          messageQueue := messageQueue + batch;
          ok := false;
        }
      case NetworkError =>
        messageQueue := messageQueue + batch;
        ok := false;
      case OtherError =>
        ok := false;
    }

    /** One pass of `_worker_loop`'s body. */
    method WorkerCycle(outcome: HttpOutcome) returns (delivered: seq<Envelope>)
      modifies this`messageQueue
      ensures messageQueue == AfterCycle(old(messageQueue), outcome)
      ensures delivered == DeliveredIn(old(messageQueue), outcome)
    {
      var batch := TakeBatch();
      delivered := [];
      if batch != [] {
        var ok, _ := SendBatch(batch, outcome);
        if ok {
          delivered := batch;
        }
      }
    }

    /** `_worker_loop`: one cycle per outcome while the forwarder is running. */
    method RunWorker(outcomes: seq<HttpOutcome>) returns (delivered: seq<Envelope>)
      modifies this`messageQueue
      ensures !isRunning ==> messageQueue == old(messageQueue) && delivered == []
      ensures isRunning ==> messageQueue == AfterCycles(old(messageQueue), outcomes)
                            && delivered == DeliveredOver(old(messageQueue), outcomes)
    {
      delivered := [];
      var i := 0;
      while isRunning && i < |outcomes|
        invariant 0 <= i <= |outcomes|
        invariant !isRunning ==> i == 0
        invariant messageQueue == AfterCycles(old(messageQueue), outcomes[..i])
        invariant delivered == DeliveredOver(old(messageQueue), outcomes[..i])
      {
        var q := messageQueue;
        var d := WorkerCycle(outcomes[i]);
        delivered := delivered + d;
        assert outcomes[..i + 1][..i] == outcomes[..i];
        i := i + 1;
      }
      assert isRunning ==> outcomes[..i] == outcomes;
    }

    /** `get_pending_commands`: the listed commands on a 200 reply, otherwise none. */
    method PendingCommands(status: Option<int>, listed: seq<Polled>) returns (commands: seq<Polled>)
      ensures commands == (if status == Some(200) then listed else [])
    {
      if status == Some(200) {
        commands := listed;
      } else {
        commands := [];
      }
    }

    /**
     * `acknowledge_command`: posts one acknowledgement whatever the reply;
     * reports true only on a 200 reply and never raises.
     */
    method AcknowledgeCommand(commandId: string, result: Json, reply: HttpOutcome) returns (ok: bool)
      modifies this`acknowledgements
      ensures ok <==> reply == Response(200)
      ensures acknowledgements == old(acknowledgements) + [Ack(commandId, result)]
    {
      acknowledgements := acknowledgements + [Ack(commandId, result)];
      ok := reply == Response(200);
    }

    method QueueSize() returns (n: nat)
      ensures n == |messageQueue|
    {
      n := |messageQueue|;
    }

    method ClearQueue()
      modifies this`messageQueue
      ensures messageQueue == []
    {
      messageQueue := [];
    }
  }
}
