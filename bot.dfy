/**
 * The bot that ties the parts together (zhilian_bot.py): it runs the commands
 * the control plane sends and acknowledges each one, relays unread chat
 * messages, fetches candidate details, and searches and greets candidates.
 *
 * The bot's collaborators are parameters. The managers' answers to a command
 * are a `Services` value. The chat list and chat history scraped from the
 * page are inputs. The detail pages and search result pages are functions
 * from URL to what loading them gives. Timestamps are `nowMillis`.
 */
module Bot {
  import opened Common
  import Forwarder
  import Realtime
  import Search
  import Interaction

  /** A call into a collaborator: its value, or the text of the exception it raised. */
  datatype Attempt<T> = Done(value: T) | Raised(error: string)

  /** What the managers do with a command's parameters. */
  datatype Services = Services(
    searchCandidates: Json -> Attempt<seq<Json>>,
    sendGreeting: Json -> Attempt<bool>,
    chatList: Attempt<seq<Json>>,
    sendChatMessage: Json -> Attempt<bool>)

  // ---------------------------------------------------------------------------
  // Running a command

  const UnknownCommand := "未知命令类型"

  function Outcome(success: bool, message: string): Json
  {
    JObject(map["success" := JBool(success), "message" := JStr(message)])
  }

  function Listing(items: seq<Json>): Json
  {
    JObject(map["success" := JBool(true), "data" := JList(items), "count" := JInt(|items|)])
  }

  /** Whether a result reports success. */
  predicate Succeeded(result: Json)
  {
    result.JObject? && "success" in result.fields && result.fields["success"] == JBool(true)
  }

  /** Whether the manager that handles `kind` completed and reported success. */
  predicate HandlerSucceeded(cmd: Forwarder.Command, services: Services)
  {
    match cmd.kind
    case "search_candidates" => services.searchCandidates(cmd.params).Done?
    case "send_greeting" => services.sendGreeting(cmd.params) == Done(true)
    case "get_chat_list" => services.chatList.Done?
    case "send_message" => services.sendChatMessage(cmd.params) == Done(true)
    case _ => false
  }

  predicate IsKnownKind(kind: string)
  {
    kind == "search_candidates" || kind == "send_greeting" || kind == "get_chat_list" || kind == "send_message"
  }

  /** The result `_execute_command` acknowledges for `cmd`; an exception becomes a failure carrying its text. */
  function CommandResult(cmd: Forwarder.Command, services: Services): (r: Json)
    ensures r.JObject? && "success" in r.fields
  {
    match cmd.kind
    case "search_candidates" =>
      (match services.searchCandidates(cmd.params)
       case Done(found) => Listing(found)
       case Raised(e) => Outcome(false, e))
    case "send_greeting" =>
      (match services.sendGreeting(cmd.params)
       case Done(ok) => Outcome(ok, if ok then "打招呼发送成功" else "打招呼发送失败")
       case Raised(e) => Outcome(false, e))
    case "get_chat_list" =>
      (match services.chatList
       case Done(chats) => Listing(chats)
       case Raised(e) => Outcome(false, e))
    case "send_message" =>
      (match services.sendChatMessage(cmd.params)
       case Done(ok) => Outcome(ok, if ok then "消息发送成功" else "消息发送失败")
       case Raised(e) => Outcome(false, e))
    case _ => Outcome(false, UnknownCommand)
  }

  /** A command is acknowledged as a success exactly when its kind is known and its manager succeeded. */
  lemma AckReportsHandlerSuccess(cmd: Forwarder.Command, services: Services)
    ensures Succeeded(CommandResult(cmd, services)) <==> IsKnownKind(cmd.kind) && HandlerSucceeded(cmd, services)
  {
  }

  /** An unknown kind is acknowledged with the fixed failure message. */
  lemma UnknownKindIsRejected(cmd: Forwarder.Command, services: Services)
    requires !IsKnownKind(cmd.kind)
    ensures CommandResult(cmd, services) == Outcome(false, UnknownCommand)
  {
  }

  /** The manager that raised: its error text is acknowledged as a failure. */
  function RaisedBy(cmd: Forwarder.Command, services: Services): Option<string>
  {
    match cmd.kind
    case "search_candidates" =>
      (if services.searchCandidates(cmd.params).Raised? then Some(services.searchCandidates(cmd.params).error) else None)
    case "send_greeting" =>
      (if services.sendGreeting(cmd.params).Raised? then Some(services.sendGreeting(cmd.params).error) else None)
    case "get_chat_list" => (if services.chatList.Raised? then Some(services.chatList.error) else None)
    case "send_message" =>
      (if services.sendChatMessage(cmd.params).Raised? then Some(services.sendChatMessage(cmd.params).error) else None)
    case _ => None
  }

  lemma ExceptionIsAcknowledgedAsFailure(cmd: Forwarder.Command, services: Services)
    requires RaisedBy(cmd, services).Some?
    ensures CommandResult(cmd, services) == Outcome(false, RaisedBy(cmd, services).value)
  {
  }

  /** One acknowledgement per command, in the order the commands came. */
  function AcksFor(commands: seq<Forwarder.Command>, services: Services): (acks: seq<Forwarder.Ack>)
    ensures |acks| == |commands|
    ensures forall i :: 0 <= i < |acks| ==> acks[i] == Forwarder.Ack(commands[i].id, CommandResult(commands[i], services))
  {
    if commands == [] then []
    else AcksFor(commands[..|commands| - 1], services)
         + [Forwarder.Ack(commands[|commands| - 1].id, CommandResult(commands[|commands| - 1], services))]
  }

  /**
   * The commands a poll actually runs, as written: those before the first
   * entry that is not an object. For such an entry `command.get` raises, the
   * exception handler's own `command.get('id', '')` raises again, and the
   * exception leaves `_execute_command` and ends the monitor cycle.
   */
  function RunnablePrefix(polled: seq<Forwarder.Polled>): (cmds: seq<Forwarder.Command>)
    ensures |cmds| <= |polled|
    ensures forall i :: 0 <= i < |cmds| ==> polled[i] == Forwarder.CommandObject(cmds[i])
    ensures |cmds| < |polled| ==> polled[|cmds|] == Forwarder.NotAnObject
  {
    if polled == [] || polled[0] == Forwarder.NotAnObject then []
    else [polled[0].command] + RunnablePrefix(polled[1..])
  }

  /** Every command object of a poll, in poll order, with the other entries skipped:
      what the loop evidently intends to run. */
  function CommandsIn(polled: seq<Forwarder.Polled>): (cmds: seq<Forwarder.Command>)
    ensures |cmds| <= |polled|
    ensures forall c :: c in cmds <==> Forwarder.CommandObject(c) in polled
  {
    if polled == [] then []
    else (if polled[0].CommandObject? then [polled[0].command] else []) + CommandsIn(polled[1..])
  }

  /** The intended acknowledgements of a poll: one per command object, in poll order,
      whatever other entries the poll holds. */
  lemma {:induction false} IntendedAcksEveryCommand(polled: seq<Forwarder.Polled>, services: Services, c: Forwarder.Command)
    requires Forwarder.CommandObject(c) in polled
    ensures Forwarder.Ack(c.id, CommandResult(c, services)) in AcksFor(CommandsIn(polled), services)
  {
    var cmds := CommandsIn(polled);
    var i :| 0 <= i < |cmds| && cmds[i] == c;
    assert AcksFor(cmds, services)[i] == Forwarder.Ack(c.id, CommandResult(c, services));
  }

  /** On a poll made only of command objects, the loop as written runs every command,
      as intended. */
  lemma {:induction false} RunnableWhenAllObjects(polled: seq<Forwarder.Polled>)
    requires forall i :: 0 <= i < |polled| ==> polled[i].CommandObject?
    ensures RunnablePrefix(polled) == CommandsIn(polled)
  {
    if polled != [] {
      RunnableWhenAllObjects(polled[1..]);
    }
  }

  /** As written, an entry that is not an object ahead of a valid command means the
      valid command is neither run nor acknowledged; the intended loop acknowledges it. */
  lemma MalformedCommandStopsPoll(c: Forwarder.Command, services: Services)
    ensures AcksFor(RunnablePrefix([Forwarder.NotAnObject, Forwarder.CommandObject(c)]), services) == []
    ensures AcksFor(CommandsIn([Forwarder.NotAnObject, Forwarder.CommandObject(c)]), services)
            == [Forwarder.Ack(c.id, CommandResult(c, services))]
  {
    var polled := [Forwarder.NotAnObject, Forwarder.CommandObject(c)];
    assert CommandsIn(polled[1..]) == [c];
  }

  // ---------------------------------------------------------------------------
  // Relaying chats

  /** A chat as listed on the page; a missing unread count reads as 0. */
  datatype ChatSummary = ChatSummary(id: string, name: string, unreadCount: int)

  /** A history message, with '' for a missing sender, content or id. */
  datatype ChatEntry = ChatEntry(sender: string, content: string, id: string)

  /** A `get_chat_history(chat_id, limit)` call. */
  datatype HistoryRequest = HistoryRequest(chatId: string, limit: int)

  /** The history requests of a monitor cycle: one per chat with unread messages, for that many. */
  function HistoryRequests(chats: seq<ChatSummary>): seq<HistoryRequest>
  {
    if chats == [] then []
    else
      var c := chats[|chats| - 1];
      HistoryRequests(chats[..|chats| - 1]) + (if c.unreadCount > 0 then [HistoryRequest(c.id, c.unreadCount)] else [])
  }

  function ChatEnvelope(chat: ChatSummary, m: ChatEntry, nowMillis: nat): Forwarder.Envelope
  {
    Forwarder.Envelope("zhilian", "chat_message", nowMillis,
                       Forwarder.ChatMessageData(m.sender, "bot", m.content, m.id, Some(chat.id), nowMillis))
  }

  function MessageEnvelopes(chat: ChatSummary, messages: seq<ChatEntry>, nowMillis: nat): (r: seq<Forwarder.Envelope>)
    ensures |r| == |messages|
    ensures forall i :: 0 <= i < |r| ==> r[i] == ChatEnvelope(chat, messages[i], nowMillis)
  {
    if messages == [] then []
    else MessageEnvelopes(chat, messages[..|messages| - 1], nowMillis) + [ChatEnvelope(chat, messages[|messages| - 1], nowMillis)]
  }

  /** The envelopes a monitor cycle forwards: the fetched history of each unread chat, chat by chat. */
  function ChatEnvelopes(chats: seq<ChatSummary>, history: (string, int) -> seq<ChatEntry>, nowMillis: nat): seq<Forwarder.Envelope>
  {
    if chats == [] then []
    else
      var c := chats[|chats| - 1];
      ChatEnvelopes(chats[..|chats| - 1], history, nowMillis)
      + (if c.unreadCount > 0 then MessageEnvelopes(c, history(c.id, c.unreadCount), nowMillis) else [])
  }

  lemma ChatEnvelopesStep(chats: seq<ChatSummary>, i: nat, history: (string, int) -> seq<ChatEntry>, nowMillis: nat)
    requires i < |chats|
    ensures HistoryRequests(chats[..i + 1]) == HistoryRequests(chats[..i]) + HistoryRequests([chats[i]])
    ensures ChatEnvelopes(chats[..i + 1], history, nowMillis)
            == ChatEnvelopes(chats[..i], history, nowMillis) + ChatEnvelopes([chats[i]], history, nowMillis)
  {
    assert chats[..i + 1][..i] == chats[..i];
    assert [chats[i]][..0] == [];
  }

  lemma ChatEnvelopesOfOne(chat: ChatSummary, history: (string, int) -> seq<ChatEntry>, nowMillis: nat)
    ensures HistoryRequests([chat]) == (if chat.unreadCount > 0 then [HistoryRequest(chat.id, chat.unreadCount)] else [])
    ensures ChatEnvelopes([chat], history, nowMillis)
            == (if chat.unreadCount > 0 then MessageEnvelopes(chat, history(chat.id, chat.unreadCount), nowMillis) else [])
  {
    assert [chat][..0] == [];
  }

  /** Histories are fetched only for chats with unread messages, each for exactly its unread count. */
  lemma {:induction false} HistoryOnlyForUnreadChats(chats: seq<ChatSummary>)
    ensures forall r :: r in HistoryRequests(chats) ==>
              r.limit > 0 && exists c :: c in chats && c.id == r.chatId && c.unreadCount == r.limit
  {
    if chats != [] {
      var init := chats[..|chats| - 1];
      HistoryOnlyForUnreadChats(init);
      forall r | r in HistoryRequests(chats)
        ensures r.limit > 0 && exists c :: c in chats && c.id == r.chatId && c.unreadCount == r.limit
      {
        if r in HistoryRequests(init) {
          var c :| c in init && c.id == r.chatId && c.unreadCount == r.limit;
          assert c in chats;
        } else {
          assert chats[|chats| - 1] in chats;
        }
      }
    }
  }

  /** Chats without unread messages cause no history request. */
  lemma {:induction false} ReadChatsCauseNoRequests(chats: seq<ChatSummary>)
    requires forall i :: 0 <= i < |chats| ==> chats[i].unreadCount <= 0
    ensures HistoryRequests(chats) == []
  {
    if chats != [] {
      ReadChatsCauseNoRequests(chats[..|chats| - 1]);
    }
  }

  /** `e` relays a message of `chat` to recipient 'bot'. */
  predicate RelayedFrom(e: Forwarder.Envelope, chat: ChatSummary)
  {
    e.kind == "chat_message" && e.data.JObject? && "recipient_id" in e.data.fields && "chat_id" in e.data.fields
    && e.data.fields["recipient_id"] == JStr("bot") && e.data.fields["chat_id"] == JStr(chat.id)
  }

  lemma MessagesRelayedFrom(chat: ChatSummary, messages: seq<ChatEntry>, nowMillis: nat)
    ensures forall e :: e in MessageEnvelopes(chat, messages, nowMillis) ==> RelayedFrom(e, chat)
  {
    var ms := MessageEnvelopes(chat, messages, nowMillis);
    forall e | e in ms
      ensures RelayedFrom(e, chat)
    {
      var i :| 0 <= i < |ms| && ms[i] == e;
      assert e == ChatEnvelope(chat, messages[i], nowMillis);
    }
  }

  /** Every relayed chat message goes to recipient 'bot' and names the unread chat it came from. */
  lemma {:induction false} RelayedMessagesAreAddressed(chats: seq<ChatSummary>, history: (string, int) -> seq<ChatEntry>, nowMillis: nat)
    ensures forall e :: e in ChatEnvelopes(chats, history, nowMillis) ==>
              exists c :: c in chats && c.unreadCount > 0 && RelayedFrom(e, c)
  {
    if chats != [] {
      var init := chats[..|chats| - 1];
      var c := chats[|chats| - 1];
      RelayedMessagesAreAddressed(init, history, nowMillis);
      forall e | e in ChatEnvelopes(chats, history, nowMillis)
        ensures exists c :: c in chats && c.unreadCount > 0 && RelayedFrom(e, c)
      {
        if e in ChatEnvelopes(init, history, nowMillis) {
          var d :| d in init && d.unreadCount > 0 && RelayedFrom(e, d);
          assert d in chats;
        } else {
          assert c.unreadCount > 0 && e in MessageEnvelopes(c, history(c.id, c.unreadCount), nowMillis);
          MessagesRelayedFrom(c, history(c.id, c.unreadCount), nowMillis);
          assert c in chats;
        }
      }
    }
  }

  // ---------------------------------------------------------------------------
  // Candidate details

  function ErrorDetail(url: string, error: string): map<string, Json>
  {
    map["url" := JStr(url), "error" := JStr(error), "name" := JStr("获取失败"), "status" := JStr("error")]
  }

  /** Python truthiness of a JSON value. */
  predicate Truthy(v: Json)
  {
    match v
    case JNull => false
    case JBool(b) => b
    case JInt(i) => i != 0
    case JStr(s) => s != ""
    case JList(items) => items != []
    case JObject(fields) => fields != map[]
  }

  /** `d.get('error')` is truthy. */
  predicate HasError(d: map<string, Json>)
  {
    "error" in d && Truthy(d["error"])
  }

  /** The entries one URL adds: none for a blank URL or an empty detail, the detail, or an error record. */
  function DetailsFor(url: string, fetch: string -> Attempt<map<string, Json>>): (r: seq<map<string, Json>>)
    ensures |r| <= 1
  {
    if Strip(url) == "" then []
    else match fetch(url)
      case Raised(e) => [ErrorDetail(url, e)]
      case Done(d) => if d == map[] then [] else [d]
  }

  /** The details forwarded for one URL: a fetched non-empty detail (error records are not forwarded). */
  function ForwardedFor(url: string, fetch: string -> Attempt<map<string, Json>>): (r: seq<map<string, Json>>)
    ensures |r| <= 1
  {
    if Strip(url) == "" then []
    else match fetch(url)
      case Raised(_) => []
      case Done(d) => if d == map[] then [] else [d]
  }

  function DetailsOf(urls: seq<string>, fetch: string -> Attempt<map<string, Json>>): (r: seq<map<string, Json>>)
    ensures |r| <= |urls|
  {
    if urls == [] then [] else DetailsOf(urls[..|urls| - 1], fetch) + DetailsFor(urls[|urls| - 1], fetch)
  }

  /** The envelope queued for one URL: a `candidate_info` envelope for a fetched non-empty detail. */
  function CandidateEnvelopeFor(url: string, fetch: string -> Attempt<map<string, Json>>, nowMillis: nat): seq<Forwarder.Envelope>
  {
    var f := ForwardedFor(url, fetch);
    if f == [] then [] else [Forwarder.Envelope("zhilian", "candidate_info", nowMillis, JObject(f[0]))]
  }

  function CandidateEnvelopes(urls: seq<string>, fetch: string -> Attempt<map<string, Json>>, nowMillis: nat): seq<Forwarder.Envelope>
  {
    if urls == [] then []
    else CandidateEnvelopes(urls[..|urls| - 1], fetch, nowMillis) + CandidateEnvelopeFor(urls[|urls| - 1], fetch, nowMillis)
  }

  lemma DetailsStep(urls: seq<string>, i: nat, fetch: string -> Attempt<map<string, Json>>, nowMillis: nat)
    requires i < |urls|
    ensures DetailsOf(urls[..i + 1], fetch) == DetailsOf(urls[..i], fetch) + DetailsFor(urls[i], fetch)
    ensures CandidateEnvelopes(urls[..i + 1], fetch, nowMillis)
            == CandidateEnvelopes(urls[..i], fetch, nowMillis) + CandidateEnvelopeFor(urls[i], fetch, nowMillis)
  {
    assert urls[..i + 1][..i] == urls[..i];
  }

  /** The details of consecutive URL lists are the details of each, in order. */
  lemma {:induction false} DetailsKeepUrlOrder(a: seq<string>, b: seq<string>, fetch: string -> Attempt<map<string, Json>>)
    ensures DetailsOf(a + b, fetch) == DetailsOf(a, fetch) + DetailsOf(b, fetch)
    decreases |b|
  {
    if b != [] {
      var b0 := b[..|b| - 1];
      assert (a + b)[..|a + b| - 1] == a + b0;
      DetailsKeepUrlOrder(a, b0, fetch);
    } else {
      assert a + b == a;
    }
  }

  /** Blank URLs contribute nothing. */
  lemma {:induction false} BlankUrlsAreSkipped(urls: seq<string>, fetch: string -> Attempt<map<string, Json>>)
    requires forall i :: 0 <= i < |urls| ==> Strip(urls[i]) == ""
    ensures DetailsOf(urls, fetch) == []
  {
    if urls != [] {
      BlankUrlsAreSkipped(urls[..|urls| - 1], fetch);
    }
  }

  function SuccessCount(details: seq<map<string, Json>>): nat
  {
    if details == [] then 0 else SuccessCount(details[..|details| - 1]) + (if HasError(details[|details| - 1]) then 0 else 1)
  }

  function ErrorCount(details: seq<map<string, Json>>): nat
  {
    if details == [] then 0 else ErrorCount(details[..|details| - 1]) + (if HasError(details[|details| - 1]) then 1 else 0)
  }

  /** Every entry is counted exactly once, as a success or as an error. */
  lemma {:induction false} CountsPartitionDetails(details: seq<map<string, Json>>)
    ensures SuccessCount(details) + ErrorCount(details) == |details|
  {
    if details != [] {
      CountsPartitionDetails(details[..|details| - 1]);
    }
  }

  /** A fetch that raised with a non-empty text is counted as an error; with an empty text, as a success. */
  lemma RaisedFetchCountedByItsText(url: string, e: string)
    ensures HasError(ErrorDetail(url, e)) <==> e != ""
  {
  }

  // ---------------------------------------------------------------------------
  // Search and greet

  /** A candidate record as the bot forwards it. */
  function CandidateJson(c: Search.Candidate): Json
  {
    JObject(map["name" := JStr(c.name), "profile_url" := JStr(c.profileUrl), "salary" := JStr(c.salary),
                "location" := JStr(c.location), "experience" := JStr(c.experience), "education" := JStr(c.education),
                "company" := JStr(c.company), "publish_time" := JStr(c.publishTime)])
  }

  /** A search result as `batch_greeting` reads it: every key is present. */
  function AsEntry(c: Search.Candidate): Interaction.Entry
  {
    Interaction.Record(Some(c.name), Some(c.company), Some(c.profileUrl))
  }

  function AsEntries(cs: seq<Search.Candidate>): (r: seq<Interaction.Entry>)
    ensures |r| == |cs|
    ensures forall i :: 0 <= i < |r| ==> r[i] == AsEntry(cs[i])
  {
    if cs == [] then [] else AsEntries(cs[..|cs| - 1]) + [AsEntry(cs[|cs| - 1])]
  }

  function DetailJson(d: Interaction.Detail): Json
  {
    JObject(map["name" := JStr(d.name), "company" := JStr(d.company), "url" := JStr(d.url), "success" := JBool(d.success)])
  }

  function ReportFields(r: Interaction.Report): map<string, Json>
  {
    map["total" := JInt(r.total), "success" := JInt(r.success), "failed" := JInt(r.failed),
        "details" := JList(seq(|r.details|, i requires 0 <= i < |r.details| => DetailJson(r.details[i])))]
  }

  function CandidateInfoEnvelopes(cs: seq<Search.Candidate>, nowMillis: nat): (r: seq<Forwarder.Envelope>)
    ensures |r| == |cs|
    ensures forall i :: 0 <= i < |r| ==> r[i] == Forwarder.Envelope("zhilian", "candidate_info", nowMillis, CandidateJson(cs[i]))
  {
    if cs == [] then [] else CandidateInfoEnvelopes(cs[..|cs| - 1], nowMillis)
                              + [Forwarder.Envelope("zhilian", "candidate_info", nowMillis, CandidateJson(cs[|cs| - 1]))]
  }

  /** The candidates `search_candidates` returns for the bot's search. */
  function SearchResults(keyword: string, location: string, experience: string, education: string, pageLimit: int,
                         fetch: string -> Search.PageLoad): seq<Search.Candidate>
  {
    Search.ScanPages(Search.PageUrlsOf(Search.BuildSearchUrl(Search.SearchBaseUrl, keyword, location, experience, education, "", "")),
                     1, pageLimit, Search.Outcomes(fetch), [], []).candidates
  }

  /** The 'batch_greeting' interaction event that reports a batch of greetings. */
  function GreetingEventEnvelope(report: Interaction.Report, nowMillis: nat): Forwarder.Envelope
  {
    Forwarder.Envelope("zhilian", "interaction_event", nowMillis,
                       Forwarder.InteractionEventData("batch_greeting", "batch", Some(ReportFields(report)), nowMillis))
  }

  /** What a search that found something forwards: every kept candidate, then the greeting event. */
  function SearchEnvelopes(chosen: seq<Search.Candidate>, report: Interaction.Report, nowMillis: nat): seq<Forwarder.Envelope>
  {
    CandidateInfoEnvelopes(chosen, nowMillis) + [GreetingEventEnvelope(report, nowMillis)]
  }

  /** The greeting report for the search results `found`: zeros when nothing was found. */
  function GreetReport(found: seq<Search.Candidate>, message: Option<string>, maxCandidates: int,
                       greet: Interaction.GreetingRequest -> bool): Interaction.Report
  {
    if found == [] then Interaction.EmptyReport
    else Interaction.IntendedBatchFrom(AsEntries(SliceTo(found, maxCandidates)), 0, message, true, maxCandidates, greet, 0,
                               Interaction.EmptyReport)
  }

  /** At most `maxCandidates` greetings are attempted, on the first search results with a profile URL, in order. */
  lemma GreetsAtMostMaxCandidates(found: seq<Search.Candidate>, message: Option<string>, maxCandidates: int,
                                  greet: Interaction.GreetingRequest -> bool)
    ensures var r := GreetReport(found, message, maxCandidates, greet);
            var urls := Interaction.GreetableUrls(AsEntries(SliceTo(found, maxCandidates)));
            |r.details| <= Interaction.Max0(maxCandidates)
            && Interaction.DetailUrls(r.details) == urls[..Min(Interaction.Max0(maxCandidates), |urls|)]
  {
    var entries := AsEntries(SliceTo(found, maxCandidates));
    Interaction.IntendedAgreesOnWellFormed(entries, 0, message, true, maxCandidates, greet, 0, Interaction.EmptyReport);
    Interaction.DetailsFollowCandidateOrder(entries, 0, message, true, maxCandidates, greet, 0, Interaction.EmptyReport);
    assert entries[0..] == entries;
    DetailUrlsLength(GreetReport(found, message, maxCandidates, greet).details);
    if found == [] {
      assert Interaction.GreetableUrls(entries) == [];
    }
  }

  lemma {:induction false} DetailUrlsLength(details: seq<Interaction.Detail>)
    ensures |Interaction.DetailUrls(details)| == |details|
  {
    if details != [] {
      DetailUrlsLength(details[1..]);
    }
  }

  // ---------------------------------------------------------------------------
  // The bot

  class ZhilianBot {
    var isRunning: bool
    /** `message_forwarder`; null when it was not set up. */
    const forwarder: Forwarder.MessageForwarder?
    /** `websocket_manager`; null when it was not set up. */
    const channel: Realtime.ChatChannel?

    constructor (forwarder: Forwarder.MessageForwarder?, channel: Realtime.ChatChannel?)
      ensures this.forwarder == forwarder && this.channel == channel && !isRunning
    {
      this.forwarder := forwarder;
      this.channel := channel;
      isRunning := false;
    }

    /**
     * `_execute_command`. For a command object: exactly one acknowledgement,
     * with the command's id, when a forwarder is set up. For an entry that is
     * not an object: no acknowledgement; the second `get` of the exception
     * handler raises out of the method (`escaped`) when a forwarder is set up.
     */
    method ExecuteCommand(entry: Forwarder.Polled, services: Services, reply: Forwarder.HttpOutcome)
      returns (escaped: bool)
      modifies forwarder
      ensures forwarder != null ==> forwarder.FlagsUnchanged() && forwarder.messageQueue == old(forwarder.messageQueue)
      ensures escaped <==> entry == Forwarder.NotAnObject && forwarder != null
      ensures forwarder != null ==>
                forwarder.acknowledgements
                == old(forwarder.acknowledgements)
                   + (if entry.CommandObject? then [Forwarder.Ack(entry.command.id, CommandResult(entry.command, services))] else [])
    {
      if entry == Forwarder.NotAnObject {
        escaped := forwarder != null;
        return;
      }
      escaped := false;
      var cmd := entry.command;
      var result := CommandResult(cmd, services);
      if forwarder != null {
        var _ := forwarder.AcknowledgeCommand(cmd.id, result, reply);
      }
    }

    /** Relays the fetched history of one chat, message by message. */
    method RelayChat(chat: ChatSummary, messages: seq<ChatEntry>, nowMillis: nat)
      requires forwarder != null
      modifies forwarder`messageQueue
      ensures forwarder.messageQueue == old(forwarder.messageQueue) + MessageEnvelopes(chat, messages, nowMillis)
      ensures forwarder.acknowledgements == old(forwarder.acknowledgements)
    {
      var j := 0;
      while j < |messages|
        invariant 0 <= j <= |messages|
        invariant forwarder.messageQueue == old(forwarder.messageQueue) + MessageEnvelopes(chat, messages[..j], nowMillis)
        invariant forwarder.acknowledgements == old(forwarder.acknowledgements)
      {
        var m := messages[j];
        assert messages[..j + 1][..j] == messages[..j];
        var _ := forwarder.ForwardChatMessage(m.sender, "bot", m.content, m.id, Some(chat.id), nowMillis);
        j := j + 1;
      }
      assert messages[..j] == messages;
    }

    /** Runs the polled commands in poll order, one acknowledgement each, until an
        entry that is not an object ends the cycle (`aborted`). */
    method RunCommands(polled: seq<Forwarder.Polled>, services: Services, replies: string -> Forwarder.HttpOutcome)
      returns (aborted: bool)
      requires forwarder != null
      modifies forwarder
      ensures aborted <==> |RunnablePrefix(polled)| < |polled|
      ensures forwarder.acknowledgements == old(forwarder.acknowledgements) + AcksFor(RunnablePrefix(polled), services)
      ensures forwarder.messageQueue == old(forwarder.messageQueue) && forwarder.FlagsUnchanged()
    {
      ghost var cmds := RunnablePrefix(polled);
      var k := 0;
      aborted := false;
      while k < |polled| && !aborted
        invariant 0 <= k <= |cmds|
        invariant aborted ==> k == |cmds| < |polled|
        invariant forwarder.acknowledgements == old(forwarder.acknowledgements) + AcksFor(cmds[..k], services)
        invariant forwarder.messageQueue == old(forwarder.messageQueue) && forwarder.FlagsUnchanged()
        decreases |polled| - k, !aborted
      {
        var entry := polled[k];
        var reply := if entry.CommandObject? then replies(entry.command.id) else Forwarder.Response(200);
        var escaped := ExecuteCommand(entry, services, reply);
        if escaped {
          aborted := true;
        } else {
          assert cmds[..k + 1][..k] == cmds[..k];
          k := k + 1;
        }
      }
      assert cmds[..k] == cmds;
    }

    /** One chat of a monitor cycle: fetch and relay its history when it has unread messages. */
    method RelayStep(chat: ChatSummary, history: (string, int) -> seq<ChatEntry>, nowMillis: nat)
      returns (asked: seq<HistoryRequest>)
      modifies forwarder
      ensures forwarder != null ==> forwarder.FlagsUnchanged()
      ensures asked == HistoryRequests([chat])
      ensures forwarder != null ==>
                forwarder.messageQueue == old(forwarder.messageQueue) + ChatEnvelopes([chat], history, nowMillis)
                && forwarder.acknowledgements == old(forwarder.acknowledgements)
    {
      ChatEnvelopesOfOne(chat, history, nowMillis);
      asked := [];
      if chat.unreadCount > 0 {
        asked := [HistoryRequest(chat.id, chat.unreadCount)];
        var messages := history(chat.id, chat.unreadCount);
        if forwarder != null {
          RelayChat(chat, messages, nowMillis);
        }
      }
    }

    /** Fetches and relays the history of every chat with unread messages, in list order. */
    method RelayUnreadChats(chats: seq<ChatSummary>, history: (string, int) -> seq<ChatEntry>, nowMillis: nat)
      returns (requests: seq<HistoryRequest>)
      modifies forwarder
      ensures forwarder != null ==> forwarder.FlagsUnchanged()
      ensures requests == HistoryRequests(chats)
      ensures forwarder != null ==>
                forwarder.messageQueue == old(forwarder.messageQueue) + ChatEnvelopes(chats, history, nowMillis)
                && forwarder.acknowledgements == old(forwarder.acknowledgements)
    {
      requests := [];
      var i := 0;
      while i < |chats|
        invariant 0 <= i <= |chats|
        invariant requests == HistoryRequests(chats[..i])
        invariant forwarder != null ==> forwarder.FlagsUnchanged()
        invariant forwarder != null ==>
                    forwarder.messageQueue == old(forwarder.messageQueue) + ChatEnvelopes(chats[..i], history, nowMillis)
                    && forwarder.acknowledgements == old(forwarder.acknowledgements)
      {
        ChatEnvelopesStep(chats, i, history, nowMillis);
        var asked := RelayStep(chats[i], history, nowMillis);
        requests := requests + asked;
        if forwarder != null {
          AppendAssoc(old(forwarder.messageQueue), ChatEnvelopes(chats[..i], history, nowMillis),
                      ChatEnvelopes([chats[i]], history, nowMillis));
        }
        i := i + 1;
      }
      assert chats[..i] == chats;
    }

    /**
     * One pass of `monitor_chats`: fetch the history of each chat with unread
     * messages and relay it, then run the pending commands in poll order.
     */
    method MonitorCycle(chats: seq<ChatSummary>, history: (string, int) -> seq<ChatEntry>,
                        pollStatus: Option<int>, listed: seq<Forwarder.Polled>, services: Services,
                        replies: string -> Forwarder.HttpOutcome, nowMillis: nat)
      returns (requests: seq<HistoryRequest>)
      modifies forwarder
      ensures forwarder != null ==> forwarder.FlagsUnchanged()
      ensures requests == HistoryRequests(chats)
      ensures forwarder != null ==>
                forwarder.messageQueue == old(forwarder.messageQueue) + ChatEnvelopes(chats, history, nowMillis)
                && forwarder.acknowledgements
                   == old(forwarder.acknowledgements)
                      + AcksFor(RunnablePrefix(if pollStatus == Some(200) then listed else []), services)
    {
      requests := RelayUnreadChats(chats, history, nowMillis);
      if forwarder != null {
        var commands := forwarder.PendingCommands(pollStatus, listed);
        var _ := RunCommands(commands, services, replies);
      }
    }

    /** The work for one URL: its entries, and the forwarding of a fetched detail. */
    method DetailStep(url: string, fetch: string -> Attempt<map<string, Json>>, nowMillis: nat)
      returns (added: seq<map<string, Json>>)
      modifies forwarder
      ensures forwarder != null ==> forwarder.FlagsUnchanged()
      ensures added == DetailsFor(url, fetch)
      ensures forwarder != null ==>
                forwarder.messageQueue == old(forwarder.messageQueue) + CandidateEnvelopeFor(url, fetch, nowMillis)
                && forwarder.acknowledgements == old(forwarder.acknowledgements)
    {
      added := [];
      if Strip(url) != "" {
        var fetched := fetch(url);
        if fetched.Raised? {
          added := [ErrorDetail(url, fetched.error)];
        } else if fetched.value != map[] {
          added := [fetched.value];
          if forwarder != null {
            var _ := forwarder.ForwardCandidateInfo(JObject(fetched.value), nowMillis);
          }
        }
      }
    }

    /** `get_candidate_details`: details in URL order, blank URLs skipped, fetched details forwarded. */
    method GetCandidateDetails(urls: seq<string>, fetch: string -> Attempt<map<string, Json>>, nowMillis: nat)
      returns (details: seq<map<string, Json>>)
      modifies forwarder
      ensures forwarder != null ==> forwarder.FlagsUnchanged()
      ensures details == DetailsOf(urls, fetch)
      ensures forwarder != null ==>
                forwarder.messageQueue == old(forwarder.messageQueue) + CandidateEnvelopes(urls, fetch, nowMillis)
                && forwarder.acknowledgements == old(forwarder.acknowledgements)
    {
      details := [];
      var i := 0;
      while i < |urls|
        invariant 0 <= i <= |urls|
        invariant details == DetailsOf(urls[..i], fetch)
        invariant forwarder != null ==> forwarder.FlagsUnchanged()
        invariant forwarder != null ==>
                    forwarder.messageQueue == old(forwarder.messageQueue) + CandidateEnvelopes(urls[..i], fetch, nowMillis)
                    && forwarder.acknowledgements == old(forwarder.acknowledgements)
      {
        DetailsStep(urls, i, fetch, nowMillis);
        var added := DetailStep(urls[i], fetch, nowMillis);
        details := details + added;
        if forwarder != null {
          AppendAssoc(old(forwarder.messageQueue), CandidateEnvelopes(urls[..i], fetch, nowMillis),
                      CandidateEnvelopeFor(urls[i], fetch, nowMillis));
        }
        i := i + 1;
      }
      assert urls[..i] == urls;
    }

    /**
     * `search_and_greet_candidates`: search, keep the first `maxCandidates`
     * results, greet them, then forward every kept candidate and one
     * interaction event carrying the report.
     */
    method SearchAndGreet(keyword: string, location: string, experience: string, education: string, pageLimit: int,
                          message: Option<string>, maxCandidates: int, fetch: string -> Search.PageLoad,
                          greet: Interaction.GreetingRequest -> bool, nowMillis: nat)
      returns (report: Interaction.Report)
      modifies forwarder
      ensures forwarder != null ==> forwarder.FlagsUnchanged()
      ensures var found := SearchResults(keyword, location, experience, education, pageLimit, fetch);
              report == GreetReport(found, message, maxCandidates, greet)
              && (forwarder != null ==>
                    forwarder.acknowledgements == old(forwarder.acknowledgements)
                    && forwarder.messageQueue == old(forwarder.messageQueue)
                       + (if found == [] then [] else SearchEnvelopes(SliceTo(found, maxCandidates), report, nowMillis)))
    {
      var found, _ := Search.SearchCandidates(Search.SearchBaseUrl, keyword, location, experience, education, "", "",
                                              pageLimit, fetch);
      if found == [] {
        return Interaction.EmptyReport;
      }
      report := GreetKept(found, message, maxCandidates, greet);
      if forwarder != null {
        ForwardSearchOutcome(SliceTo(found, maxCandidates), report, nowMillis);
      }
    }

    /** Greets the first `maxCandidates` of a non-empty search result with `batch_greeting`. */
    method GreetKept(found: seq<Search.Candidate>, message: Option<string>, maxCandidates: int,
                     greet: Interaction.GreetingRequest -> bool) returns (report: Interaction.Report)
      requires found != []
      ensures report == GreetReport(found, message, maxCandidates, greet)
    {
      var entries := AsEntries(SliceTo(found, maxCandidates));
      report := Interaction.BatchGreeting(Some(entries), message, true, maxCandidates, greet);
      Interaction.IntendedAgreesOnWellFormed(entries, 0, message, true, maxCandidates, greet, 0, Interaction.EmptyReport);
    }

    /** Forwards the kept candidates, then the 'batch_greeting' event carrying the report. */
    method ForwardSearchOutcome(chosen: seq<Search.Candidate>, report: Interaction.Report, nowMillis: nat)
      requires forwarder != null
      modifies forwarder`messageQueue
      ensures forwarder.messageQueue == old(forwarder.messageQueue) + SearchEnvelopes(chosen, report, nowMillis)
    {
      ForwardCandidates(chosen, nowMillis);
      var _ := forwarder.ForwardInteractionEvent("batch_greeting", "batch", Some(ReportFields(report)), nowMillis);
      AppendAssoc(old(forwarder.messageQueue), CandidateInfoEnvelopes(chosen, nowMillis), [GreetingEventEnvelope(report, nowMillis)]);
    }

    /** Forwards each candidate's record, in order. */
    method ForwardCandidates(cs: seq<Search.Candidate>, nowMillis: nat)
      requires forwarder != null
      modifies forwarder`messageQueue
      ensures forwarder.messageQueue == old(forwarder.messageQueue) + CandidateInfoEnvelopes(cs, nowMillis)
      ensures forwarder.acknowledgements == old(forwarder.acknowledgements)
    {
      var i := 0;
      while i < |cs|
        invariant 0 <= i <= |cs|
        invariant forwarder.messageQueue == old(forwarder.messageQueue) + CandidateInfoEnvelopes(cs[..i], nowMillis)
        invariant forwarder.acknowledgements == old(forwarder.acknowledgements)
      {
        assert cs[..i + 1][..i] == cs[..i];
        var _ := forwarder.ForwardCandidateInfo(CandidateJson(cs[i]), nowMillis);
        i := i + 1;
      }
      assert cs[..i] == cs;
    }

    /** `_handle_websocket_message`: relays every inbound realtime message as a "websocket_message". */
    method HandleRealtimeMessage(data: Json, nowMillis: nat)
      modifies forwarder
      ensures forwarder != null ==> forwarder.FlagsUnchanged()
      ensures forwarder != null ==>
                forwarder.messageQueue == old(forwarder.messageQueue) + [Forwarder.Envelope("zhilian", "websocket_message", nowMillis, data)]
                && forwarder.acknowledgements == old(forwarder.acknowledgements)
    {
      if forwarder != null {
        var _ := forwarder.ForwardMessage(data, "websocket_message", nowMillis);
      }
    }

    /** `stop`: clears the running flag, disconnects the channel and stops the forwarder's worker.
        Nothing else of the channel or the forwarder changes. */
    method Stop()
      requires channel != null ==> channel.Valid()
      modifies this`isRunning, channel, forwarder
      ensures !isRunning
      ensures channel != null ==> channel.Valid() && !channel.running && !channel.isConnected && !channel.hasSocket
                                  && channel.messageQueue == old(channel.messageQueue)
                                  && channel.handlers == old(channel.handlers)
                                  && channel.reconnectAttempts == old(channel.reconnectAttempts)
                                  && channel.wsUrl == old(channel.wsUrl)
      ensures forwarder != null ==> !forwarder.isRunning && forwarder.messageQueue == old(forwarder.messageQueue)
                                    && forwarder.workerStarted == old(forwarder.workerStarted)
                                    && forwarder.acknowledgements == old(forwarder.acknowledgements)
    {
      isRunning := false;
      if channel != null {
        channel.Disconnect();
      }
      if forwarder != null {
        forwarder.Stop();
      }
    }
  }
}
