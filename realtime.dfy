/**
 * The realtime chat channel (modules/websocket_chat.py).
 *
 * The object's fields are changed by the transport's callbacks (open, message,
 * error, close) and by the public operations (connect, send, handler
 * registration, disconnect). Each callback is a method here. The transport
 * itself, its threads and the heartbeat loop are outside the model: whatever
 * they observe (did the open handshake arrive in time, did a write succeed,
 * did a frame parse, did a handler raise) is an input.
 */
module Realtime {
  import opened Common

  /** Default cap on reconnect attempts (WS_MAX_RECONNECT_ATTEMPTS). */
  const DefaultMaxReconnectAttempts: int := 10

  /** Handlers are compared by identity, as Python compares bound methods. */
  type HandlerId = nat

  /** One entry of the inbound history: `{'timestamp', 'data', 'raw_message'}`;
      the timestamp is a `time.time()` reading, in seconds. */
  datatype InboundRecord = InboundRecord(timestamp: real, data: Json, raw: string)

  /** The connection bookkeeping that the callbacks update. */
  datatype ChannelView = ChannelView(connected: bool, running: bool, attempts: int, maxAttempts: int)

  /** `_on_close` reconnects only while running and below the cap. */
  predicate ReconnectDue(v: ChannelView)
  {
    v.running && v.attempts < v.maxAttempts
  }

  function AfterOpen(v: ChannelView): ChannelView
  {
    v.(connected := true, attempts := 0)
  }

  /** `_on_close`, including the increment done by `_reconnect` before it tries. */
  function AfterClose(v: ChannelView): ChannelView
  {
    if ReconnectDue(v) then v.(connected := false, attempts := v.attempts + 1) else v.(connected := false)
  }

  /** The state after `n` close events with no open in between. */
  function AfterCloses(v: ChannelView, n: nat): ChannelView
    decreases n
  {
    if n == 0 then v else AfterCloses(AfterClose(v), n - 1)
  }

  /** How many of those `n` close events started a reconnect. */
  function ReconnectsDuring(v: ChannelView, n: nat): nat
    decreases n
  {
    if n == 0 then 0 else (if ReconnectDue(v) then 1 else 0) + ReconnectsDuring(AfterClose(v), n - 1)
  }

  /** The channel invariant: the counter never passes the cap (it only grows below it). */
  predicate AttemptsBounded(v: ChannelView)
  {
    0 <= v.attempts && (v.attempts <= v.maxAttempts || v.attempts == 0)
  }

  lemma CloseKeepsBound(v: ChannelView)
    requires AttemptsBounded(v)
    ensures AttemptsBounded(AfterClose(v)) && AttemptsBounded(AfterOpen(v))
  {
  }

  /** A run of close events starts exactly min(n, max - attempts) reconnects
      while running (none when stopped), every one raising the counter by one,
      and leaves the channel disconnected. */
  lemma {:induction false} CloseStorm(v: ChannelView, n: nat)
    requires AttemptsBounded(v)
    ensures var k := if !v.running || v.attempts >= v.maxAttempts then 0
                     else if n < v.maxAttempts - v.attempts then n else v.maxAttempts - v.attempts;
            ReconnectsDuring(v, n) == k
            && AfterCloses(v, n).attempts == v.attempts + k
            && (n > 0 ==> !AfterCloses(v, n).connected)
            && AfterCloses(v, n).running == v.running
            && AfterCloses(v, n).maxAttempts == v.maxAttempts
    decreases n
  {
    if n > 0 {
      CloseStorm(AfterClose(v), n - 1);
    }
  }

  /** From a fresh open with the default cap, ten closes start ten reconnects
      and the eleventh and later ones start none. */
  lemma ReconnectGivesUpAfterCap(v: ChannelView, n: nat)
    requires v.running && v.attempts == 0 && v.maxAttempts == DefaultMaxReconnectAttempts
    requires n > DefaultMaxReconnectAttempts
    ensures ReconnectsDuring(v, n) == DefaultMaxReconnectAttempts
    ensures !ReconnectDue(AfterCloses(v, n))
  {
    CloseStorm(v, n);
  }

  // ---------------------------------------------------------------------------
  // Handlers and history

  /** Handlers that ran to completion on `m`, in registration order. */
  function Completed(handlers: seq<HandlerId>, m: Json, raises: (HandlerId, Json) -> bool): seq<HandlerId>
  {
    if handlers == [] then []
    else
      var last := handlers[|handlers| - 1];
      Completed(handlers[..|handlers| - 1], m, raises) + (if raises(last, m) then [] else [last])
  }

  /** Isolation: a handler that does not raise completes, whatever the others do. */
  lemma {:induction false} WellBehavedHandlerCompletes(handlers: seq<HandlerId>, m: Json,
                                                      raises: (HandlerId, Json) -> bool, h: HandlerId)
    requires h in handlers && !raises(h, m)
    ensures h in Completed(handlers, m, raises)
    decreases |handlers|
  {
    var init := handlers[..|handlers| - 1];
    if handlers[|handlers| - 1] != h {
      assert handlers == init + [handlers[|handlers| - 1]];
      WellBehavedHandlerCompletes(init, m, raises, h);
    }
  }

  /** Only registered handlers complete, and a raising handler never does. */
  lemma {:induction false} CompletedAreRegistered(handlers: seq<HandlerId>, m: Json,
                                                 raises: (HandlerId, Json) -> bool)
    ensures forall h :: h in Completed(handlers, m, raises) ==> h in handlers && !raises(h, m)
    ensures |Completed(handlers, m, raises)| <= |handlers|
    decreases |handlers|
  {
    if handlers != [] {
      CompletedAreRegistered(handlers[..|handlers| - 1], m, raises);
    }
  }

  /** `list.remove(h)`: drop the first occurrence of `h`. */
  function RemoveFirst(s: seq<HandlerId>, h: HandlerId): seq<HandlerId>
  {
    if s == [] then [] else if s[0] == h then s[1..] else [s[0]] + RemoveFirst(s[1..], h)
  }

  lemma {:induction false} RemoveFirstSpec(s: seq<HandlerId>, h: HandlerId)
    ensures h !in s ==> RemoveFirst(s, h) == s
    ensures h in s ==> multiset(RemoveFirst(s, h)) == multiset(s) - multiset{h}
    ensures h in s ==> |RemoveFirst(s, h)| == |s| - 1
    decreases |s|
  {
    if s != [] {
      assert s == [s[0]] + s[1..];
      assert multiset(s) == multiset{s[0]} + multiset(s[1..]);
      if s[0] != h {
        RemoveFirstSpec(s[1..], h);
        assert RemoveFirst(s, h) == [s[0]] + RemoveFirst(s[1..], h);
        assert h in s ==> h in s[1..];
      }
    }
  }

  /** `get_recent_messages(count)` as written:
      `queue[-count:] if len(queue) > count else queue.copy()`. */
  function RecentAsWritten(q: seq<InboundRecord>, count: int): seq<InboundRecord>
  {
    if |q| > count then SliceFrom(q, -count) else q
  }

  /** For a positive count the written code returns the last min(count, |q|) entries. */
  lemma RecentPositiveCount(q: seq<InboundRecord>, count: int)
    requires count >= 1
    ensures RecentAsWritten(q, count) == q[|q| - Min(count, |q|)..]
  {
  }

  /** Asking for zero recent messages returns the whole non-empty history,
      because `q[-0:]` is `q[0:]`. */
  lemma RecentZeroReturnsEverything(q: seq<InboundRecord>)
    requires q != []
    ensures RecentAsWritten(q, 0) == q && RecentAsWritten(q, 0) != []
  {
  }

  /** The evidently intended "last `count` messages": none for count <= 0. */
  function RecentMessages(q: seq<InboundRecord>, count: int): (r: seq<InboundRecord>)
    ensures |r| == if count <= 0 then 0 else Min(count, |q|)
    ensures r == q[|q| - |r|..]
  {
    if count <= 0 then [] else q[|q| - Min(count, |q|)..]
  }

  /** The intended view agrees with the written one on every positive count. */
  lemma RecentAgreesOnPositiveCounts(q: seq<InboundRecord>, count: int)
    requires count >= 1
    ensures RecentMessages(q, count) == RecentAsWritten(q, count)
  {
    RecentPositiveCount(q, count);
  }

  /** The frame `send_chat_message` builds. */
  function ChatFrame(recipientId: string, content: string, messageType: string, nowMillis: nat): (f: Json)
    ensures f.JObject? && f.fields.Keys == {"type", "recipient_id", "content", "message_type", "timestamp"}
    ensures f.fields["type"] == JStr("chat_message") && f.fields["content"] == JStr(content)
  {
    JObject(map[
      "type" := JStr("chat_message"),
      "recipient_id" := JStr(recipientId),
      "content" := JStr(content),
      "message_type" := JStr(messageType),
      "timestamp" := JInt(nowMillis)])
  }

  class ChatChannel {
    /** The endpoint URL; empty until it has been discovered. */
    var wsUrl: string
    /** Whether `self.ws` holds a transport object. */
    var hasSocket: bool
    var isConnected: bool
    var running: bool
    var reconnectAttempts: int
    const maxReconnectAttempts: int
    var handlers: seq<HandlerId>
    var messageQueue: seq<InboundRecord>

    function View(): ChannelView
      reads this
    {
      ChannelView(isConnected, running, reconnectAttempts, maxReconnectAttempts)
    }

    predicate Valid()
      reads this
    {
      AttemptsBounded(View())
    }

    constructor (maxAttempts: int)
      ensures Valid()
      ensures View() == ChannelView(false, false, 0, maxAttempts)
      ensures wsUrl == "" && !hasSocket && handlers == [] && messageQueue == []
    {
      wsUrl := "";
      hasSocket := false;
      isConnected := false;
      running := false;
      reconnectAttempts := 0;
      maxReconnectAttempts := maxAttempts;
      handlers := [];
      messageQueue := [];
    }

    /** `_on_open`: connected, and the reconnect counter starts over. */
    method OnOpen()
      requires Valid()
      modifies this`isConnected, this`reconnectAttempts
      ensures Valid()
      ensures View() == AfterOpen(old(View()))
    {
      isConnected := true;
      reconnectAttempts := 0;
    }

    /** `_on_error`. */
    method OnError()
      requires Valid()
      modifies this`isConnected
      ensures Valid()
      ensures View() == old(View()).(connected := false)
    {
      isConnected := false;
    }

    /** `_on_close`, followed by `_reconnect` when it is due. The reconnect's own
        outcome reaches the channel later, as an open or close event. */
    method OnClose() returns (reconnecting: bool)
      requires Valid()
      modifies this`isConnected, this`reconnectAttempts, this`hasSocket
      ensures Valid()
      ensures reconnecting == ReconnectDue(old(View()))
      ensures View() == AfterClose(old(View()))
      ensures hasSocket == (old(hasSocket) || reconnecting)
    {
      isConnected := false;
      reconnecting := running && reconnectAttempts < maxReconnectAttempts;
      if reconnecting {
        reconnectAttempts := reconnectAttempts + 1;
        hasSocket := true;
      }
    }

    /** `connect`. `discovered` is the URL found on the chat page, if any; it is
        looked for only when no URL is kept yet, and once found it is kept for
        later calls. `handshake` says whether the open handshake completed
        within the timeout. */
    method Connect(discovered: Option<string>, handshake: bool) returns (ok: bool)
      requires Valid()
      modifies this`wsUrl, this`hasSocket, this`running, this`isConnected, this`reconnectAttempts
      ensures Valid()
      ensures old(wsUrl) == "" && discovered.None? ==>
                !ok && View() == old(View()) && wsUrl == old(wsUrl) && hasSocket == old(hasSocket)
      ensures old(wsUrl) != "" || discovered.Some? ==>
                wsUrl == (if old(wsUrl) != "" then old(wsUrl) else discovered.value)
                && hasSocket && running
                && (if handshake then View() == AfterOpen(old(View())).(running := true)
                    else View() == old(View()).(running := true))
                && ok == isConnected
    {
      if wsUrl == "" {
        if discovered.None? {
          return false;
        }
        wsUrl := discovered.value;
      }
      hasSocket := true;
      running := true;
      if handshake {
        OnOpen();
      }
      ok := isConnected;
    }

    /** `_on_message`. A frame that does not parse is discarded; otherwise it is
        recorded and every handler is called once, in order, each one's
        exception caught. */
    method OnMessage(raw: string, parsed: Option<Json>, nowSeconds: real, raises: (HandlerId, Json) -> bool)
      returns (invoked: seq<HandlerId>, completed: seq<HandlerId>)
      modifies this`messageQueue
      ensures parsed.None? ==> messageQueue == old(messageQueue) && invoked == [] && completed == []
      ensures parsed.Some? ==>
                messageQueue == old(messageQueue) + [InboundRecord(nowSeconds, parsed.value, raw)]
                && invoked == handlers
                && completed == Completed(handlers, parsed.value, raises)
    {
      invoked, completed := [], [];
      if parsed.None? {
        return;
      }
      var m := parsed.value;
      messageQueue := messageQueue + [InboundRecord(nowSeconds, m, raw)];
      for i := 0 to |handlers|
        invariant invoked == handlers[..i]
        invariant completed == Completed(handlers[..i], m, raises)
      {
        invoked := invoked + [handlers[i]];
        if !raises(handlers[i], m) {
          completed := completed + [handlers[i]];
        }
        assert handlers[..i + 1][..i] == handlers[..i];
      }
      assert handlers[..|handlers|] == handlers;
    }

    /** `send_message`: refused when not connected; otherwise the frame is
        written, and `writeOk` says whether the write raised. */
    method SendMessage(data: Json, writeOk: bool) returns (ok: bool, written: Option<Json>)
      ensures !isConnected ==> !ok && written == None
      ensures isConnected ==> ok == writeOk && written == (if writeOk then Some(data) else None)
    {
      if !isConnected {
        return false, None;
      }
      if writeOk {
        return true, Some(data);
      }
      return false, None;
    }

    method SendChatMessage(recipientId: string, content: string, messageType: string,
                           nowMillis: nat, writeOk: bool) returns (ok: bool, written: Option<Json>)
      ensures ok ==> isConnected && written == Some(ChatFrame(recipientId, content, messageType, nowMillis))
      ensures !ok ==> written == None
      ensures ok <==> isConnected && writeOk
    {
      ok, written := SendMessage(ChatFrame(recipientId, content, messageType, nowMillis), writeOk);
    }

    method AddMessageHandler(h: HandlerId)
      modifies this`handlers
      ensures handlers == old(handlers) + [h]
    {
      handlers := handlers + [h];
    }

    method RemoveMessageHandler(h: HandlerId)
      modifies this`handlers
      ensures handlers == RemoveFirst(old(handlers), h)
    {
      RemoveFirstSpec(handlers, h);
      if h in handlers {
        var i := 0;
        while handlers[i] != h
          invariant 0 <= i < |handlers| && h in handlers[i..]
          invariant forall j :: 0 <= j < i ==> handlers[j] != h
          decreases |handlers| - i
        {
          i := i + 1;
        }
        RemoveAt(handlers, i, h);
        handlers := handlers[..i] + handlers[i + 1..];
      }
    }

    /** `get_recent_messages`, as written; the history is not changed. */
    method GetRecentMessages(count: int) returns (recent: seq<InboundRecord>)
      ensures recent == RecentAsWritten(messageQueue, count)
      ensures count >= 1 ==> recent == messageQueue[|messageQueue| - Min(count, |messageQueue|)..]
    {
      RecentPositiveCountFor(count);
      if |messageQueue| > count {
        recent := SliceFrom(messageQueue, -count);
      } else {
        recent := messageQueue;
      }
    }

    lemma RecentPositiveCountFor(count: int)
      ensures count >= 1 ==> RecentAsWritten(messageQueue, count)
                             == messageQueue[|messageQueue| - Min(count, |messageQueue|)..]
    {
      if count >= 1 {
        RecentPositiveCount(messageQueue, count);
      }
    }

    method ClearMessageQueue()
      modifies this`messageQueue
      ensures messageQueue == []
    {
      messageQueue := [];
    }

    /** `disconnect`: always safe; a second call changes nothing further. */
    method Disconnect()
      requires Valid()
      modifies this`running, this`isConnected, this`hasSocket
      ensures Valid()
      ensures !running && !isConnected && !hasSocket
      ensures reconnectAttempts == old(reconnectAttempts)
    {
      running := false;
      isConnected := false;
      hasSocket := false;
    }
  }

  /** Removing the first `h`, found at `i`, is cutting index `i` out. */
  lemma {:induction false} RemoveAt(s: seq<HandlerId>, i: nat, h: HandlerId)
    requires i < |s| && s[i] == h
    requires forall j :: 0 <= j < i ==> s[j] != h
    ensures RemoveFirst(s, h) == s[..i] + s[i + 1..]
    decreases i
  {
    if i > 0 {
      RemoveAt(s[1..], i - 1, h);
      assert s[1..][..i - 1] == s[1..i];
      assert s[..i] == [s[0]] + s[1..i];
      assert s[1..][i..] == s[i + 1..];
    }
  }
}
