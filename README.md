# ZhilianBot relay core in Dafny

This project models the relay and bookkeeping layer of ZhilianBot, a bot for a recruiting website. It proves properties about that model. The bot:

- searches the site for positions;
- greets candidates in batches;
- relays unread chat messages and realtime-channel traffic to an operator's control-plane server;
- runs the commands that server sends back, acknowledging each one.

The model has six modules:

- `Common` (common.dfy): the shared vocabulary. It has an Option type, a JSON value type, and the Python string and slicing operations the other modules rely on. These are `s[a:b]` with negative bounds, `str(n)`, `str.strip()` and `str.split(sep)`.
- `Forwarder` (forwarder.dfy): the outbound forwarder of `modules/message_forwarder.py`. A class `MessageForwarder` holds the queue of envelopes as a `seq` field. Its methods append to the queue, cut a batch of at most ten from the head, and apply the HTTP reply to the batch. The reply's effect is:
  - 200: delivered;
  - 4xx: dropped;
  - any other status, or a transport error: the batch is put back at the tail;
  - any other exception: dropped.

  Pure functions describe one worker cycle and a run of cycles. The lemmas prove conservation, FIFO delivery and the drain bound.
- `Realtime` (realtime.dfy): the chat channel of `modules/websocket_chat.py`. A class `ChatChannel` has one method per transport callback (open, message, error, close) and per public operation. A pure `ChannelView` transition system is used to prove the reconnect cap. A parse that can fail, a write that can fail and a handler that can raise are all inputs.
- `Search` (search.dfy): search URLs, page URLs, the page loop, the 50-card cap, and the heuristics that turn a result card into a record (from `modules/candidate.py`). `urllib.parse.quote` is modelled concretely: UTF-8 encoding followed by percent-escaping, with '/' kept. A round-trip lemma is proved for it.
- `Interaction` (interaction.dfy): the step chain of one greeting and the batch-greeting loop with its counters (from `modules/interaction.py`).
- `Bot` (bot.dfy): the class `ZhilianBot` of `zhilian_bot.py`. It covers command dispatch, with one acknowledgement per command object and an early end of the cycle at a polled entry that is not an object, one cycle of chat monitoring, candidate details, search-and-greet, realtime relaying and `stop`.

Browser pages, HTTP replies, clocks and `random` are parameters of the operations that use them.

## Model

| member | source | states |
|---|---|---|
| Common.SliceFromNegative | modules/websocket_chat.py:298 | for n > 0, Python's `s[-n:]` is the last min(n, len s) entries |
| Common.StripBlank | zhilian_bot.py:197 | `s.strip()` is empty exactly when every character of `s` is whitespace |
| Common.StripIdempotent | modules/candidate.py:355 | stripping an already stripped text changes nothing |
| Common.JoinSplit | modules/candidate.py:375 | splitting a text at a character and joining the parts with that character gives the text back |
| Forwarder.FateOf | modules/message_forwarder.py:223-248 | the four fates partition the replies: delivered iff status 200; rejected iff 400..499; requeued iff another status or a RequestException; dropped iff another exception |
| Forwarder.BatchOf | modules/message_forwarder.py:111-116 | the batch is the queue's prefix of length min(10, len queue); it is non-empty whenever the queue is |
| Forwarder.CycleConserves | modules/message_forwarder.py:111-248 | one cycle neither loses nor duplicates an envelope: the queue after it, plus the batch when its fate is final, is the multiset of the queue before |
| Forwarder.DeliveredLeavesQueue | modules/message_forwarder.py:223-225 | after a 200 reply the queue is what followed the batch, and batch + new queue == old queue |
| Forwarder.RejectedIsDiscarded | modules/message_forwarder.py:230-231 | a 4xx reply discards the batch; only what followed it stays queued |
| Forwarder.RequeueGoesToTail | modules/message_forwarder.py:233-244 | a retryable failure moves the batch, in its own order, behind everything queued after it, so with more than ten queued the next cycle posts the eleventh envelope first |
| Forwarder.DeliveryIsFifo | modules/message_forwarder.py:104-126 | when every post is answered 200, n cycles deliver the oldest min(len, 10n) envelopes in enqueue order and leave the rest |
| Forwarder.FifteenInTwoBatches | modules/message_forwarder.py:114-116 | fifteen envelopes go out as the oldest ten, then the other five, and the queue is then empty |
| Forwarder.DrainsInCeilCycles | modules/message_forwarder.py:104-126 | ceil(N/10) cycles answered 200 deliver all N envelopes in order and empty the queue |
| Forwarder.ChatMessageFields | modules/message_forwarder.py:150-172 | the chat payload has exactly the seven documented fields, with the given recipient, content and chat id (null when absent), and a non-empty message id that equals the given id when there is one |
| Forwarder.InteractionEventData | modules/message_forwarder.py:182-200 | the event payload has exactly the five documented fields, with the event type, and `{}` as details when none are given |
| Forwarder.MessageForwarder.constructor | modules/message_forwarder.py:21-35 | a new forwarder is stopped, has no worker and has an empty queue |
| Forwarder.MessageForwarder.Start | modules/message_forwarder.py:65-86 | it does nothing when already running or when no server URL is set; otherwise it is running with a worker started |
| Forwarder.MessageForwarder.Stop | modules/message_forwarder.py:88-102 | the running flag is cleared and the queue is kept |
| Forwarder.MessageForwarder.ForwardMessage | modules/message_forwarder.py:128-148 | exactly one envelope is appended at the tail, with source 'zhilian', the given type and data; earlier entries are unchanged; it returns true |
| Forwarder.MessageForwarder.ForwardChatMessage | modules/message_forwarder.py:150-172 | one 'chat_message' envelope carrying the chat payload is appended |
| Forwarder.MessageForwarder.ForwardCandidateInfo | modules/message_forwarder.py:174-180 | one 'candidate_info' envelope carrying the record is appended |
| Forwarder.MessageForwarder.ForwardInteractionEvent | modules/message_forwarder.py:182-200 | one 'interaction_event' envelope carrying the event payload is appended |
| Forwarder.MessageForwarder.TakeBatch | modules/message_forwarder.py:111-116 | batch + new queue == old queue, and 1 <= len batch <= 10 when the queue was non-empty |
| Forwarder.MessageForwarder.SendBatch | modules/message_forwarder.py:202-248 | an empty batch returns true with no request; 200 returns true and does not requeue; 4xx returns false and leaves the queue unchanged; another status or a RequestException appends the batch at the tail and returns false; another exception returns false and drops the batch |
| Forwarder.MessageForwarder.WorkerCycle | modules/message_forwarder.py:106-123 | one loop pass leaves the queue given by `AfterCycle` and delivers the batch only on 200 |
| Forwarder.MessageForwarder.RunWorker | modules/message_forwarder.py:104-126 | a running worker performs one cycle per reply in order, leaving `AfterCycles` queued and `DeliveredOver` delivered; a stopped one does nothing |
| Forwarder.MessageForwarder.PendingCommands | modules/message_forwarder.py:313-331 | the listed commands on a 200 reply, none otherwise |
| Forwarder.MessageForwarder.AcknowledgeCommand | modules/message_forwarder.py:333-357 | exactly one acknowledgement with the command id and result is posted whatever the reply; it reports true iff the reply is 200 |
| Forwarder.MessageForwarder.QueueSize | modules/message_forwarder.py:359-362 | the queue length |
| Forwarder.MessageForwarder.ClearQueue | modules/message_forwarder.py:364-368 | the queue is empty |
| Realtime.CloseKeepsBound | modules/websocket_chat.py:169-224 | open and close events keep the reconnect counter between 0 and the cap |
| Realtime.CloseStorm | modules/websocket_chat.py:209-224 | n close events while running start exactly min(n, max - attempts) reconnects (none once stopped). Each reconnect raises the counter by one, and the channel ends disconnected |
| Realtime.ReconnectGivesUpAfterCap | modules/websocket_chat.py:209-224 | after a fresh open with the default cap of 10, more than ten closes start exactly ten reconnects, and then no further one is due |
| Realtime.WellBehavedHandlerCompletes | modules/websocket_chat.py:193-197 | isolation: a handler that does not raise completes, whatever the other handlers do |
| Realtime.CompletedAreRegistered | modules/websocket_chat.py:193-197 | only registered handlers complete, and a raising handler never does |
| Realtime.RemoveFirstSpec | modules/websocket_chat.py:289-293 | removing a handler takes out exactly one occurrence when present, and changes nothing otherwise |
| Realtime.RecentPositiveCount | modules/websocket_chat.py:295-298 | for count >= 1 the code as written returns the last min(count, len) entries in order |
| Realtime.RecentZeroReturnsEverything | modules/websocket_chat.py:298 | as written, asking for 0 recent messages returns the whole non-empty history |
| Realtime.RecentMessages | modules/websocket_chat.py:295-298 | the intended view: a suffix of the history, of length min(count, len), and empty for count <= 0 |
| Realtime.RecentAgreesOnPositiveCounts | modules/websocket_chat.py:295-298 | the intended view and the written one agree on every count >= 1 |
| Realtime.ChatFrame | modules/websocket_chat.py:267-282 | the frame has exactly the five fields, type 'chat_message' and the given content |
| Realtime.ChatChannel.constructor | modules/websocket_chat.py:22-36 | a new channel is disconnected, not running, with no URL, no socket, no handlers and an empty history |
| Realtime.ChatChannel.OnOpen | modules/websocket_chat.py:169-173 | connected, and the reconnect counter is reset to 0 |
| Realtime.ChatChannel.OnError | modules/websocket_chat.py:204-207 | disconnected; nothing else changes |
| Realtime.ChatChannel.OnClose | modules/websocket_chat.py:209-224 | disconnected; a reconnect is started iff the channel is running and below the cap, and it raises the counter by exactly one |
| Realtime.ChatChannel.Connect | modules/websocket_chat.py:100-144 | with no URL known or discovered it fails and changes nothing; otherwise the kept URL, or else the discovered one, becomes the channel's URL for later calls, the channel is running with a socket, and it reports success iff the open handshake arrived, which also resets the counter |
| Realtime.ChatChannel.OnMessage | modules/websocket_chat.py:178-202 | an unparseable frame changes nothing and calls no handler; a parsed one adds exactly one history entry, then calls every handler once in registration order, and the ones that complete are `Completed` |
| Realtime.ChatChannel.SendMessage | modules/websocket_chat.py:251-265 | when not connected it returns false and writes nothing; otherwise it reports whether the write succeeded |
| Realtime.ChatChannel.SendChatMessage | modules/websocket_chat.py:267-282 | success iff connected and the write works, and then the chat frame was written |
| Realtime.ChatChannel.AddMessageHandler | modules/websocket_chat.py:284-287 | the handler is appended at the end |
| Realtime.ChatChannel.RemoveMessageHandler | modules/websocket_chat.py:289-293 | the first occurrence is removed, if any (partner: `RemoveFirstSpec`) |
| Realtime.ChatChannel.GetRecentMessages | modules/websocket_chat.py:295-298 | the written view of the unchanged history; for count >= 1, its last min(count, len) entries |
| Realtime.ChatChannel.ClearMessageQueue | modules/websocket_chat.py:300-304 | the history is empty |
| Realtime.ChatChannel.Disconnect | modules/websocket_chat.py:445-458 | not running, not connected, no socket, and the counter is untouched, so a second call changes nothing |
| Search.Utf8Char | modules/candidate.py:197 | one to four bytes; a single byte exactly for ASCII, and otherwise every byte is >= 0x80 |
| Search.Quote | modules/candidate.py:197 | the quoted keyword holds only unreserved characters, '/' and '%', so never '?', '&' or '#' |
| Search.DecodeQuoteBytes | modules/candidate.py:197 | percent-decoding undoes the escaping of any byte string |
| Search.QuoteRoundTrip | modules/candidate.py:197 | decoding a quoted keyword gives back its UTF-8 bytes |
| Search.QuoteKeepsPlainText | modules/candidate.py:197 | a keyword made of unreserved characters and '/' is left unchanged |
| Search.Lookup | modules/candidate.py:134-137 | a hit is an entry of the table with that key and that code; a miss means no entry has the key |
| Search.LookupFindsFirst | modules/candidate.py:188-191 | the lookup returns the code of the first entry carrying the key |
| Search.LookupIsPlain | modules/candidate.py:107-191 | a code looked up in a table free of '?' is free of '?' |
| Search.CodesArePlain | modules/candidate.py:107-187 | neither a city code (including the default 489) nor a keyword code (including the quoted fallback) contains '?' |
| Search.PathSegments | modules/candidate.py:131-199 | one segment for a non-empty location and one for a non-empty keyword |
| Search.QueryParams | modules/candidate.py:209-223 | the query always ends with `srccode=401801` |
| Search.SearchPathHasNoQuery | modules/candidate.py:130-206 | the path holds no '?', because table codes and quoted keywords have none |
| Search.SearchUrlSplitsAtQuery | modules/candidate.py:201-223 | the first '?' of a search URL separates the region/keyword path from the parameters joined by '&' |
| Search.PageUrlInsertsMarker | modules/candidate.py:66-76 | for page p > 1, `/p{p}` is inserted just before the first '?' and nothing else changes (appended when there is no '?') |
| Common.NatToStringDigits | modules/candidate.py:74 | the page number in `/p{page}` is written in decimal digits with no leading zero |
| Search.SearchPageUrl | modules/candidate.py:66-76 | page p > 1 of a search is its path + `/p{p}` + '?' + the same parameters |
| Search.ExamplePageUrl | modules/candidate.py:66-76 | page p >= 2 of an unfiltered search with a location and a keyword is `<base>/jl<code>/kw<code>/p<p>?srccode=401801` |
| Search.SearchPathWithBoth | modules/candidate.py:130-204 | with a location and a keyword the path is `<base>/jl<code>/kw<code>` |
| Search.UnfilteredUrl | modules/candidate.py:201-223 | with neither location nor keyword nor filters the URL is `<base>/jl489?srccode=401801` |
| Search.JavaInBeijingCodes | modules/candidate.py:109-144 | 北京 maps to 530 and Java开发 to 01500O80EO062NO0AF8G |
| Search.PythonInShanghaiCodes | modules/candidate.py:110-150 | 上海 maps to 538 and Python开发 to 01500O80EO062 |
| Search.FrontEndInShenzhenCodes | modules/candidate.py:112-156 | 深圳 maps to 765 and 前端开发 to 01500O80EO062NO0AF8 |
| Search.JavaInBeijingUrl | modules/candidate.py:101-226 | Java开发 in 北京 gives `…/sou/jl530/kw01500O80EO062NO0AF8G?srccode=401801` |
| Search.PythonInShanghaiUrl | modules/candidate.py:101-226 | Python开发 in 上海 gives `…/sou/jl538/kw01500O80EO062?srccode=401801` |
| Search.FrontEndInShenzhenUrl | modules/candidate.py:101-226 | 前端开发 in 深圳 gives `…/sou/jl765/kw01500O80EO062NO0AF8?srccode=401801` |
| Search.FirstCompanyIndex | modules/candidate.py:425-430 | the first line from i on that strips to a company name: all lines before it do not, and it does |
| Search.CompanyOf | modules/candidate.py:421-432 | the company is the first stripped line of 3..49 characters containing none of 万 千 元 年 月 日 小时 分钟, else "未知公司" |
| Search.FindCompany | modules/candidate.py:423-430 | the line scan returns `CompanyOf` the lines |
| Search.BasicInfo | modules/candidate.py:348-447 | unreadable or blank card text gives None; a record never has an empty or "未知职位" name; its company is `CompanyOf` the stripped text's lines; its URL is the link's href, or "" without a link |
| Search.BasicInfoAcceptsExactly | modules/candidate.py:354-443 | a card yields a record exactly when its text is readable and non-blank and its title is neither empty nor "未知职位" |
| Search.TitleFromTextIsNeverBlank | modules/candidate.py:374-376 | without a link the title is the first line of the stripped text, which is never empty |
| Search.LinklessCardKeptUnlessUnknown | modules/candidate.py:374-443 | a linkless card with readable non-blank text is kept unless its first line is "未知职位" |
| Search.ExtractCandidateBasicInfo | modules/candidate.py:348-447 | the step-by-step extraction with early returns equals `BasicInfo` |
| Search.ParsedCards | modules/candidate.py:294-335 | no more records than cards, and none with an empty or "未知职位" name |
| Search.PageCandidates | modules/candidate.py:292-294 | a result page yields at most 50 records |
| Search.ParsedCardsComeFromCards | modules/candidate.py:305-325 | every record is the extraction of a card that finished in time; nothing is invented |
| Search.CardsBeyondTheCapAreIgnored | modules/candidate.py:292-294 | cards after the fiftieth never change what a page yields |
| Search.ParseCandidateList | modules/candidate.py:292-342 | the records of the first 50 cards that finished in time and were accepted, in card order |
| Search.PageOutcome | modules/candidate.py:79-83 | a loaded page contributes at most 50 records |
| Search.ScanExtendsSeen | modules/candidate.py:63-93 | the loop only appends visited pages, at most one per page number up to `page_limit` |
| Search.ScanVisitsPagesInOrder | modules/candidate.py:63-79 | the pages visited are the URLs of pages 1, 2, … in order |
| Search.ScanStopsAtFirstEmptyPage | modules/candidate.py:83-86 | the loop goes past a page only when it yielded records; ending early without a failure means its last page yielded none |
| Search.ScanFailureLosesEverything | modules/candidate.py:97-99 | a failed navigation ends the search with no records, whatever was collected before |
| Search.ScanCollectsPagesInOrder | modules/candidate.py:61-95 | without a failure the result is the visited pages' records concatenated in page order |
| Search.HarvestBound | modules/candidate.py:292 | k pages yield at most 50k records |
| Search.SearchCandidates | modules/candidate.py:25-99 | the loop returns the records and visited pages of `ScanPages` over the page URLs of the built search URL, from page 1 |
| Interaction.FillTemplate | modules/interaction.py:169-174 | every filled template begins with "您好，" |
| Interaction.GreetingActions | modules/interaction.py:57-88 | a full greeting is five actions |
| Interaction.ActionsAttempted | modules/interaction.py:57-88 | between one and five actions are attempted, and all five exactly when navigation, the contact button, the message box and typing all work |
| Interaction.SendGreeting | modules/interaction.py:33-95 | true iff every step works; the actions are the chain up to and including the first failing step, and the text typed is a non-empty custom message or else a filled template |
| Interaction.CustomMessageIsTypedVerbatim | modules/interaction.py:72-83 | a successful greeting with a non-empty message types that message unchanged |
| Interaction.DetailFor | modules/interaction.py:309-315 | the detail records the candidate's profile URL |
| Interaction.BatchGreeting | modules/interaction.py:262-344 | the loop computes `BatchFrom` from the first candidate with zero counters, and an unreadable candidate list gives the all-zero report |
| Interaction.DetailsFollowCandidateOrder | modules/interaction.py:290-327 | on readable records the details are the URLs of the first min(max_count, #with URL) candidates that have a profile URL, in candidate order: candidates without one are skipped and at most `max_count` are greeted |
| Interaction.TotalCountsDetails | modules/interaction.py:317-318 | total == number of details |
| Interaction.SuccessCountsSuccessfulDetails | modules/interaction.py:320-322 | success counts exactly the details whose greeting returned true |
| Interaction.FailuresAccountedFor | modules/interaction.py:320-325 | when no pause raises, success + failed == total |
| Interaction.PauseFailureDoubleCounts | modules/interaction.py:317-336 | a greeting whose pause raises counts as a success and as a failure at once |
| Interaction.MalformedEntryErasesReport | modules/interaction.py:334-344 | as written, a non-dict entry after a sent greeting yields the all-zero report; the intended loop keeps the greeting and counts one failure |
| Interaction.IntendedKeepsProgress | modules/interaction.py:334-337 | in the intended loop, earlier details stay and no counter ever goes down |
| Interaction.IntendedAgreesOnWellFormed | modules/interaction.py:290-337 | on readable records, the intended loop and the loop as written agree |
| Bot.CommandResult | zhilian_bot.py:288-329 | every acknowledged result carries a 'success' field |
| Bot.AckReportsHandlerSuccess | zhilian_bot.py:297-317 | a command is acknowledged as a success iff its type is known and its manager completed with success |
| Bot.UnknownKindIsRejected | zhilian_bot.py:297-321 | an unknown type is acknowledged with `{'success': False, 'message': '未知命令类型'}` |
| Bot.ExceptionIsAcknowledgedAsFailure | zhilian_bot.py:323-329 | a manager's exception is acknowledged with success false and the error text |
| Bot.AcksFor | zhilian_bot.py:274-321 | one acknowledgement per command, in poll order, carrying the command's id |
| Bot.RunnablePrefix | zhilian_bot.py:274-329 | as written, the commands run from a poll are the command objects before its first entry that is not an object, in poll order |
| Bot.CommandsIn | zhilian_bot.py:274-277 | the intended commands of a poll: exactly its command objects |
| Bot.IntendedAcksEveryCommand | zhilian_bot.py:274-329 | the intended loop acknowledges every command object of the poll with its id and result |
| Bot.RunnableWhenAllObjects | zhilian_bot.py:274-277 | on a poll of command objects only, the loop as written runs every command |
| Bot.MalformedCommandStopsPoll | zhilian_bot.py:288-329 | as written, a non-object entry ahead of a valid command leaves that command unacknowledged; the intended loop acknowledges it |
| Bot.MessageEnvelopes | zhilian_bot.py:263-271 | one chat envelope per history message, in order |
| Bot.HistoryOnlyForUnreadChats | zhilian_bot.py:252-260 | history is requested only for a listed chat with unread messages, with limit = its unread count |
| Bot.ReadChatsCauseNoRequests | zhilian_bot.py:253 | chats with no unread messages cause no history request |
| Bot.MessagesRelayedFrom | zhilian_bot.py:265-271 | each message of a chat is relayed to recipient 'bot' with that chat's id |
| Bot.RelayedMessagesAreAddressed | zhilian_bot.py:252-271 | every relayed message goes to 'bot' and names an unread chat it came from |
| Bot.DetailsFor | zhilian_bot.py:196-230 | one URL adds at most one detail |
| Bot.DetailsOf | zhilian_bot.py:192-230 | no more details than URLs |
| Bot.DetailsKeepUrlOrder | zhilian_bot.py:192-230 | the details of consecutive URL lists are those of each list, in order |
| Bot.BlankUrlsAreSkipped | zhilian_bot.py:197-199 | blank URLs contribute no detail |
| Bot.CountsPartitionDetails | zhilian_bot.py:232-235 | success_count + error_count == len(details) |
| Bot.RaisedFetchCountedByItsText | zhilian_bot.py:220-233 | a fetch that raised is counted as an error exactly when its message text is non-empty |
| Bot.AsEntries | zhilian_bot.py:159-166 | each search result becomes one readable batch entry, in order |
| Bot.CandidateInfoEnvelopes | zhilian_bot.py:169-171 | one 'candidate_info' envelope per kept candidate, in order |
| Bot.GreetsAtMostMaxCandidates | zhilian_bot.py:154-166 | at most `max_candidates` greetings, on the first kept results with a profile URL, in order; none when the search found nothing |
| Bot.ZhilianBot.constructor | zhilian_bot.py:24-34 | a new bot is not running and holds the given forwarder and channel |
| Bot.ZhilianBot.ExecuteCommand | zhilian_bot.py:288-329 | for a command object with a forwarder, exactly one acknowledgement with the command's id and `CommandResult` is posted; for an entry that is not an object, none is, and the exception escapes iff a forwarder is set up; the queue and the forwarder's flags are untouched |
| Bot.ZhilianBot.RelayChat | zhilian_bot.py:263-271 | the chat's messages are appended to the queue in order |
| Bot.ZhilianBot.RunCommands | zhilian_bot.py:274-277 | the commands run in poll order, with one acknowledgement each, up to the first entry that is not an object, where the cycle ends (`aborted`) |
| Bot.ZhilianBot.RelayStep | zhilian_bot.py:253-271 | one chat: history is requested and relayed only when it has unread messages |
| Bot.ZhilianBot.RelayUnreadChats | zhilian_bot.py:252-271 | the history requests are `HistoryRequests`, and the queue grows by `ChatEnvelopes`, chat by chat |
| Bot.ZhilianBot.MonitorCycle | zhilian_bot.py:248-283 | one monitor cycle: the unread chats are relayed, then the commands polled on a 200 reply are run, with one acknowledgement each, up to the first entry that is not an object |
| Bot.ZhilianBot.DetailStep | zhilian_bot.py:196-230 | one URL: its entries are `DetailsFor`, and a fetched non-empty detail is forwarded |
| Bot.ZhilianBot.GetCandidateDetails | zhilian_bot.py:185-240 | the details are `DetailsOf` the URLs, in order, with blank URLs skipped; every fetched detail is forwarded |
| Bot.ZhilianBot.SearchAndGreet | zhilian_bot.py:137-183 | the report is `GreetReport` of the search results. When something was found, every kept candidate and then one 'batch_greeting' event carrying the report are forwarded; otherwise nothing is forwarded |
| Bot.ZhilianBot.GreetKept | zhilian_bot.py:158-166 | the greetings of a non-empty search result are `GreetReport`: the first `max_candidates` results are greeted in order |
| Bot.ZhilianBot.ForwardCandidates | zhilian_bot.py:169-171 | each candidate's record is forwarded, in order |
| Bot.ZhilianBot.HandleRealtimeMessage | zhilian_bot.py:123-135 | every inbound realtime message is forwarded as 'websocket_message' |
| Bot.ZhilianBot.Stop | zhilian_bot.py:366-388 | not running, the channel is disconnected with its history, handlers, counter and URL kept, and the forwarder is stopped with its queue, acknowledgements and worker flag kept |

## Left out

- Threads, locks, `time.sleep` and the connect-wait loop are not modelled. Each operation runs as one sequential step, and the timeout or handshake outcome is an input.
- `time.time()` is an input: `nowMillis` is one reading per operation, in milliseconds, and `nowSeconds` in `Realtime.ChatChannel.OnMessage` is one reading in seconds, as the inbound history stores it. The per-detail `timestamp` of a greeting detail is not modelled.
- The worker loop's own exception handler (modules/message_forwarder.py:124-126) is not modelled; nothing in a cycle raises in the model.
- The HTTP transport, including the urllib3 `Retry` adapter, is not modelled. The model's reply is the one the session finally returns. `register_bot`, `send_heartbeat`, `test_connection` and the request bodies are not modelled either.
- The websocket transport, `extract_websocket_info`, the header building and the heartbeat thread are not modelled.
- `get_chat_list`, `get_chat_history` and `enter_chat` are not modelled. The chat list and histories are inputs, and a chat dict with missing keys is not modelled.
- JSON parsing is an `Option` input. `json.dumps` is not modelled; frames are JSON values.
- DOM scraping is not modelled. This covers the selector loops of `_parse_candidate_list`, `get_candidate_detail` and the detail extractors, and the interaction button and input finders. A card is the data the page offers for it, and a detail page is a fetch function.
- The four regular-expression field extractors are inputs (their first match, if any), with the code's defaults when they do not match.
- `random.choice` is the `pick` parameter. `random.uniform` is not modelled; only whether the pause raised is an input.
- Interaction.FillTemplate: the fallback text of `_generate_greeting_message` (modules/interaction.py:175-177) is not modelled. Every template names only keys that are always passed, so the fallback is not reachable.
- Search.BuildSearchUrl: its exception fallback (modules/candidate.py:228-231) is not modelled. Nothing in the string building raises.
- Search.Utf8Char: encoding of lone surrogate code points is not modelled. Python's `quote` raises on them; the model encodes every `char` as a scalar value.
- Bot.ZhilianBot.MonitorCycle: only one cycle is modelled. The `while is_running` repetition, the 5 s/10 s sleeps and the retry after an exception are not.
- Bot.ZhilianBot.SearchAndGreet: the all-zero report the bot returns has no 'details' key (zhilian_bot.py:156,183). The model returns an empty details list. The outer exception path is not modelled either, because the managers are assumed initialised.
- Bot.ZhilianBot.SearchAndGreet: the search parameters are separate arguments. The dict lookups with their defaults (`''` for keyword, location, experience and education, and a `page_limit` of 3, zhilian_bot.py:147-151) are not modelled; a caller passes those defaults explicitly.
- Bot.ZhilianBot.RunCommands: follows the loop as written, which ends the cycle at a polled entry that is not an object. The intended loop, which acknowledges every command object, is `CommandsIn` with `IntendedAcksEveryCommand`; the methods do not use it. See Findings.
- Bot.ZhilianBot.MonitorCycle: after the exception that a non-object command entry raises, the cycle's handler sleeps 10 s and the next cycle starts (zhilian_bot.py:281-283). The model ends the cycle there.
- Search.ParseCandidateList: the per-card timeout threads share the variables `candidate_info` and `extraction_complete` across loop iterations (modules/candidate.py:302-312). A thread that timed out on one card can finish later, store its record and set the event made for a later card, so that record is appended in the later card's slot (modules/candidate.py:320-323). Threads are not modelled: whether a card finished in time is the input `finishesInTime`, and each record comes from its own card.
- Bot.ZhilianBot.SearchAndGreet: the `time.sleep` pause is taken to succeed on this path, so the report is computed with a working pause.
- `get_status`, `initialize`, `run`, `start_message_forwarding`, `start_websocket_chat` and the signal handler of `zhilian_bot.py` are not modelled. They are wiring, logging and configuration.
- `modules/login.py`, `config.py` (other than its search URL and reconnect cap), the logger, the demos and the test scripts are not part of this model.
- Outbound delivery:
  - The forwarder treats only status 200 as delivered (modules/message_forwarder.py:223). Any other 2xx reply requeues the batch, and the model follows the code.
  - A requeued batch goes to the TAIL of the queue (modules/message_forwarder.py:235). It does not go back to the head, so delivery order is FIFO only while no batch is requeued; `RequeueGoesToTail` states this.
  - `stop` waits up to 5 s for the worker thread and closes the HTTP session (modules/message_forwarder.py:93-97); threads and the session are not modelled. It does not flush the queue; queued envelopes stay in the queue.
- The inbound history (`message_queue` of the channel) is never evicted in the code, so the model's history is unbounded.
- Realtime.ChatChannel.OnClose: the reconnect's own `connect` is not run inline. Its outcome reaches the channel later as an open or close event; the socket is re-created and the counter raised as `_reconnect` does.

## Findings

| source | as written | input that shows it | evidently intended | confidence | as-written member | corrected member |
|---|---|---|---|---|---|---|
| modules/websocket_chat.py:295-298 | a history longer than `count` is sliced from `-count`; otherwise the whole history is copied | count = 0 on a non-empty history: `queue[-0:]` is the whole history | the last `count` messages, so none for count 0 | medium, not executed | Realtime.RecentZeroReturnsEverything | Realtime.RecentAgreesOnPositiveCounts |
| modules/interaction.py:334-337,342-344 | the per-candidate handler logs `candidate.get('name', ...)`, which raises again when the entry is not a dict | `[{'profile_url': u}, "x"]` with the first greeting sent: the outer handler returns all zeros and the sent greeting is lost | count one failure for the bad entry and go on, keeping earlier results | medium, not executed | Interaction.MalformedEntryErasesReport | Interaction.IntendedKeepsProgress |
| zhilian_bot.py:288-329 | a command that is not a dict makes `command.get` raise; the handler's `command.get('id', '')` raises again and the exception leaves `_execute_command`, ending the monitor cycle | a poll `{'commands': ["x", {valid command}]}`: neither entry is acknowledged and the valid command never runs | run and acknowledge every command object, skipping entries that are not objects | medium, not executed | Bot.MalformedCommandStopsPoll | Bot.IntendedAcksEveryCommand |
