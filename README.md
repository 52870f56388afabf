# opencode-im-bridge, modelled in Dafny

opencode-im-bridge connects chat platforms to the OpenCode command-line agent.
Platform adapters receive chat messages and normalise them into bridge
messages. The router answers built-in commands. For every other message it
lets at most one request per conversation reach the message processor. The
processor runs OpenCode, and its reply goes back through the adapter the
message came from.

This project models the core of that system:

- the session table;
- the router with its busy gate;
- the two QQ adapters (the OneBot WebSocket client and the official-API client) and the state they share;
- the configuration parsers and validation;
- the OpenCode output formatting and its process table;
- the command-line scanner;
- the log-level filter.

One module per source file:

| file | module | models |
|---|---|---|
| `wrappers.dfy` | `Wrappers` | optional values, results, pass/fail outcomes |
| `text.dfy` | `Text` | the JavaScript string operations the source relies on |
| `json.dfy` | `Json` | decoded JSON values, truthiness, `String(v)` |
| `types.dfy` | `Types` | `src/types/index.ts` |
| `session.dfy` | `Session` | `src/bridge/session.ts` |
| `adapter_base.dfy` | `AdapterBase` | `src/adapters/base.ts` |
| `router.dfy` | `Router` | `src/bridge/router.ts` |
| `onebot.dfy` | `OneBot` | `src/adapters/qq.ts` |
| `qq_official.dfy` | `QQOfficial` | `src/adapters/qq-official.ts` |
| `config.dfy` | `Config` | `src/config.ts`, and the QQ adapter choice of `src/index.ts` |
| `opencode_client.dfy` | `OpenCodeClient` | `src/opencode/client.ts` |
| `cli.dfy` | `Cli` | `src/cli.ts` |
| `logger.dfy` | `Logger` | `src/utils/logger.ts` |

**Objects whose fields the source updates are classes.** These are the session manager, the router, the adapters, the echo counter and the OpenCode client. Their methods state the whole new state.

**Pure code is functions and lemmas.** This covers parsers, normalisation, permission checks and text building.

**Time is a parameter.** Every `Date.now()` is a `now` parameter.

**Outside events are methods.**
- A socket open, error or close event, a decoded frame, a call's timeout and the reconnect timer are each a method of the adapter object.
- The answers of HTTP requests are parameters.
- What leaves the system is appended to a log field:
  - replies handed to adapters go to `outbox`;
  - processor calls go to `invocations`;
  - envelopes written to the socket go to `sent`;
  - settled API calls go to `settled`;
  - messages handed to a handler go to `delivered`;
  - posts go to `posts`.

**`routeMessage` is split at its awaits.**
- `RouteMessage` covers everything before the processor runs.
- `FinishDispatch` covers what happens after the processor settles, up to the awaited `sendReply` of a reply.
- `ReleaseAfterReply` is the idle write after that `sendReply`.

Other messages may be routed between any two of these steps. The busy check and the busy write have no await between them, so `Admit` is one step.

## Model

| member | source | states |
|---|---|---|
| Session.SessionKeyParts | src/bridge/session.ts:25-27 | a key splits at its colons into platform, group and user when a truthy group id is given, and into platform and user otherwise, provided the ids hold no colon |
| Session.SessionKeyInjective | src/bridge/session.ts:25-27 | for colon-free ids, equal keys mean the same platform, the same user and the same group (or no group on both sides): a user's group key and private key differ |
| Session.ExpiryBoundary | src/bridge/session.ts:82-84 | expiry is strict: idle for exactly the timeout is live, one millisecond more is expired |
| Session.MergeFields | src/bridge/session.ts:61 | a merge always sets `lastActive` to now, takes every field the patch gives and keeps every other field |
| Session.SweepCount | src/bridge/session.ts:89-100 | a sweep keeps exactly the unexpired keys, so the table shrinks by the number of expired ones |
| Session.SweepFinished | src/bridge/session.ts:92-97 | a pass that saw every key and removed exactly the expired ones leaves the live table |
| Session.SweepIdempotent | src/bridge/session.ts:89-100 | after a sweep nothing is expired and a second sweep at the same instant changes nothing |
| Session.SessionManager.constructor | src/bridge/session.ts:18-20 | an empty table with the given timeout |
| Session.SessionManager.Default | src/bridge/session.ts:18 | an empty table with the thirty-minute default timeout |
| Session.SessionManager.GetOrCreate | src/bridge/session.ts:32-48 | a live session is returned unchanged, its `lastActive` not refreshed, and the table is untouched; a missing or expired key gets a fresh idle session with no backend id, stored under the key and replacing the old entry |
| Session.SessionManager.Update | src/bridge/session.ts:53-63 | a missing key gives null and changes nothing; a present key is merged with the patch, refreshed to now and returned; no other key changes |
| Session.SessionManager.SetOpenCodeSession | src/bridge/session.ts:68-70 | the key's session gets the backend id, becomes busy and is refreshed; nothing happens for a missing key |
| Session.SessionManager.ClearOpenCodeSession | src/bridge/session.ts:75-77 | the key's session loses its backend id, becomes idle and is refreshed; nothing happens for a missing key |
| Session.SessionManager.Cleanup | src/bridge/session.ts:89-100 | the new table is the live table of the old one, the count returned is the number of expired keys, and the table size drops by that count |
| AdapterBase.BaseAdapter.constructor | src/adapters/base.ts:21-23 | not connected, no handler, no configuration, nothing delivered |
| AdapterBase.BaseAdapter.Init | src/adapters/base.ts:33-35 | only the configuration is stored |
| AdapterBase.BaseAdapter.OnMessage | src/adapters/base.ts:59-61 | the new handler replaces the previous one |
| AdapterBase.BaseAdapter.EmitMessage | src/adapters/base.ts:67-75 | with no handler nothing happens; otherwise the message is handed to the handler once, and a throwing handler ends the emission the same way |
| Router.ParseCommand | src/bridge/router.ts:97-107 | a command is only recognised in trimmed text that starts with `/`, and is the alias table's entry for the lower-cased first word after it |
| Router.CommandRecognised | src/bridge/router.ts:98-105 | after leading blanks, a slash, a blank-free word and nothing or a blank with arguments, the word looked up is the lower-cased word; a bare slash looks up the empty word, which is no command |
| Router.StatusLines | src/bridge/router.ts:123-125 | one line per adapter, in order, giving its platform and connection state |
| Router.StatusTextJoined | src/bridge/router.ts:127-133 | the status reply is its heading, the adapter lines and the count line joined by line breaks |
| Router.StatusTextLines | src/bridge/router.ts:121-134 | read line by line, the status reply is its heading, one line per registered adapter in registration order (one empty line when there is none), then the session count |
| Router.ReplyTarget | src/bridge/router.ts:161-162 | the reply goes to the group when the message has a truthy group id, flagged as a group; otherwise to the user |
| Router.Deliveries | src/bridge/router.ts:153-170 | a platform without an adapter gets nothing; otherwise exactly one send of the reply to the platform's adapter at the reply target |
| Router.Admit | src/bridge/router.ts:59-72 | a busy session is turned away with the table unchanged; an idle one is marked busy, refreshed and dispatched iff a processor is set, keeping its user, platform and backend id; without a processor the session is only fetched or created; no other key changes |
| Router.AdmittedThenBusy | src/bridge/router.ts:59-72 | once a message for a conversation is dispatched, a second one for the same conversation within the timeout is turned away, not dispatched, and leaves the table as it was |
| Router.MessageRouter.constructor | src/bridge/router.ts:21-24 | no adapters, no processor, nothing sent or invoked |
| Router.MessageRouter.RegisterAdapter | src/bridge/router.ts:29-36 | at most one adapter per platform, a later one replacing an earlier one in its place in the order; the router becomes the adapter's handler |
| Router.MessageRouter.SetProcessor | src/bridge/router.ts:41-43 | a processor is set |
| Router.MessageRouter.SnapshotEntries | src/bridge/router.ts:123-124 | the status listing gives each registered platform with its adapter's current connection flag, in registration order |
| Router.MessageRouter.SendReply | src/bridge/router.ts:153-170 | the outbox grows by exactly the deliveries of the reply |
| Router.MessageRouter.HandleCommand | src/bridge/router.ts:97-148 | no reply iff the message is no command; help, status and clear replies with the adapters' states and the session count before the call; only clear touches the session table, resetting the conversation's backend id to idle |
| Router.MessageRouter.AdmitMessage | src/bridge/router.ts:58-74 | the session table becomes the admission's table; the processor is called with the busy session iff admitted; the please-wait reply is sent iff busy |
| Router.MessageRouter.RouteMessage | src/bridge/router.ts:48-74 | a command is answered once, the processor is not called and only clear changes sessions; any other message goes through the busy gate |
| Router.Released | src/bridge/router.ts:80 | the idle write makes the conversation's session idle and refreshed, keeps every other entry and never recreates a missing one |
| Router.MessageRouter.FinishDispatch | src/bridge/router.ts:74-91 | a reply is handed to the adapter once while the conversation stays busy and the idle write is still owed; no reply goes idle and sends nothing; a throw goes idle and sends exactly one error reply without propagating |
| Router.MessageRouter.ReleaseAfterReply | src/bridge/router.ts:80 | after the awaited reply send, the conversation goes idle and nothing is sent |
| Router.RouteToCompletion | src/bridge/router.ts:48-91 | a dispatched conversation ends idle whatever the processor did, after exactly one processor call; a throw yields one error reply |
| Router.RouteNonCommand | src/bridge/router.ts:58-74 | for a message that is no command only the busy gate acts |
| Router.SecondMessageWaits | src/bridge/router.ts:59-74 | while a dispatch is in flight, a second message for the same conversation gets exactly the please-wait reply and the processor is called once in all |
| Router.SecondMessageDuringReplyWaits | src/bridge/router.ts:59-80 | while the first reply's send is awaited, a second message for the same conversation is turned away: its please-wait reply follows the first reply, the processor is called once in all, and the conversation is still busy |
| OneBot.TokenCounterOfToken | src/adapters/qq.ts:24-26 | a token gives back the counter value it embeds |
| OneBot.TokensDistinct | src/adapters/qq.ts:23-26 | tokens from different counter values differ whatever the clock says |
| OneBot.EchoSource.constructor | src/adapters/qq.ts:23 | the counter starts at zero |
| OneBot.EchoSource.Next | src/adapters/qq.ts:24-26 | the counter is pre-incremented and the token carries its new value |
| OneBot.TextSegments | src/adapters/qq.ts:242 | only text segments are kept |
| OneBot.SegmentTextOnlyText | src/adapters/qq.ts:241-244 | the content of a segment list is the concatenated texts of its text segments; other segments contribute nothing |
| OneBot.CheckPermission | src/adapters/qq.ts:276-300 | passes iff both allow-lists are empty, or the user is listed, or the message is a group message from a listed non-zero group |
| OneBot.PrivateNeedsListedUser | src/adapters/qq.ts:276-300 | with an allow-list configured, a private message passes iff its user is listed |
| OneBot.NormalizeDrops | src/adapters/qq.ts:231-249 | an event is dropped iff its sender lacks permission or its text is blank |
| OneBot.NormalizeFields | src/adapters/qq.ts:251-266 | a kept event becomes a QQ message with the trimmed text, decimal ids, the nickname, the time in milliseconds, and a group id iff it is a group message |
| OneBot.FormatMessage | src/adapters/qq.ts:156-165 | exactly the reply code `[CQ:reply,id=X] ` followed by the content when the reply names a message `X`, and the content alone otherwise |
| OneBot.SendRequest | src/adapters/qq.ts:136-148 | group or private action and the parsed target id by the group flag; the at-mention prefix only for a group reply that asks for it |
| OneBot.ReplyReachesOrigin | src/adapters/qq.ts:136-148 | a reply to a normalised event is addressed back to the event's group or user |
| OneBot.ResponseResult | src/adapters/qq.ts:209-213 | ok status resolves with the data; anything else rejects with the text of a truthy `message`, otherwise with "API call failed" |
| OneBot.SettleKeepsConsistent | src/adapters/qq.ts:204-207 | settling a pending call keeps the bookkeeping consistent: tokens come from the counter, settled calls are no longer pending, none settles twice |
| OneBot.QQAdapter.constructor | src/adapters/qq.ts:36-48 | no socket, no timer, no pending calls, not connected |
| OneBot.QQAdapter.Init | src/adapters/qq.ts:53-56 | the base and the adapter both store the configuration |
| OneBot.QQAdapter.Connect | src/adapters/qq.ts:61-81 | without a URL it fails with the URL error and opens nothing; otherwise one socket is opened with the access token when one is set |
| OneBot.QQAdapter.OnOpen | src/adapters/qq.ts:83-88 | connected, and no reconnect timer pending |
| OneBot.QQAdapter.OnError | src/adapters/qq.ts:94-99 | the pending connect is rejected iff not yet connected |
| OneBot.QQAdapter.OnClose | src/adapters/qq.ts:101-105 | not connected; a reconnect is scheduled unless one is pending; pending calls stay |
| OneBot.QQAdapter.ScheduleReconnect | src/adapters/qq.ts:305-319 | a pending timer is left alone; otherwise one is armed with `reconnectInterval` or 5000 |
| OneBot.QQAdapter.ClearReconnectTimer | src/adapters/qq.ts:324-329 | no timer pending |
| OneBot.QQAdapter.OnReconnectTimer | src/adapters/qq.ts:313-318 | the timer is gone and connect runs again |
| OneBot.QQAdapter.Disconnect | src/adapters/qq.ts:116-126 | no timer, no socket, not connected |
| OneBot.QQAdapter.CallApi | src/adapters/qq.ts:170-192 | exactly one pending entry under a token never used before, and one envelope sent |
| OneBot.QQAdapter.SendMessage | src/adapters/qq.ts:131-151 | refused when not connected or without a socket; otherwise one call with the request for the reply |
| OneBot.QQAdapter.HandleOneBotMessage | src/adapters/qq.ts:231-270 | the handler receives the normalised message iff the event is kept |
| OneBot.QQAdapter.HandleFrame | src/adapters/qq.ts:197-226 | a frame with a matching echo settles and removes exactly that call; an unknown echo is dropped and changes nothing; frames with an echo are never events; message events are normalised; unparsable frames change nothing |
| OneBot.QQAdapter.OnCallTimeout | src/adapters/qq.ts:181-184 | the entry is deleted and the call rejected with the timeout error |
| OneBot.LateResponseIgnored | src/adapters/qq.ts:181-214 | a response after its call timed out is ignored: the call settles once, with the timeout |
| OneBot.CallThenResponse | src/adapters/qq.ts:170-214 | a call followed by its response settles with the response's result and leaves the table as before the call |
| OneBot.RepeatedCloseOneTimer | src/adapters/qq.ts:305-308 | repeated closes arm one timer |
| OneBot.DisconnectThenClose | src/adapters/qq.ts:101-126 | the close event after a disconnect schedules a reconnect |
| QQOfficial.ExpiresIn | src/adapters/qq-official.ts:170 | the numeric `expires_in`, else 7200 |
| QQOfficial.ClassifyToken | src/adapters/qq-official.ts:162-189 | in order: a numeric non-zero code is an error; a top-level token; a token under `data`; otherwise an unknown format, which an array body also reaches; null, a string, a number or a boolean makes the key test fail |
| QQOfficial.RefreshSchedule | src/adapters/qq-official.ts:170-171 | a token is renewed exactly once its lifetime less five minutes has passed |
| QQOfficial.CheckPermission | src/adapters/qq-official.ts:323-344 | passes iff both lists are empty, or `Number(userId)` is listed, or a truthy guild id's number is listed |
| QQOfficial.WebhookMessage | src/adapters/qq-official.ts:286-317 | nothing iff the sender is refused, a bot, or the content blank; otherwise trimmed content, the author's id, group iff a channel id with that id, time in milliseconds |
| QQOfficial.OpenWebhookDelivered | test/adapters/qq-official.test.ts:24-52 | with no allow-list, a human's non-blank message is delivered with its content and author id |
| QQOfficial.UnlistedAuthorIgnored | test/adapters/qq-official.test.ts:82-109 | an author absent from the user list is ignored |
| QQOfficial.EndpointInjective | src/adapters/qq-official.ts:119-121 | the channel or direct-message endpoint names target and kind: distinct pairs never share one |
| QQOfficial.PostOutcome | src/adapters/qq-official.ts:128-132 | the send succeeds iff the answer's code is 0 |
| QQOfficial.QQOfficialAdapter.constructor | src/adapters/qq-official.ts:57-66 | no token, expiry 0, no poll interval or stored handle, not connected |
| QQOfficial.QQOfficialAdapter.RefreshAccessToken | src/adapters/qq-official.ts:140-197 | one token request; a grant stores the token and its renewal time; a failure keeps both |
| QQOfficial.QQOfficialAdapter.EnsureTokenValid | src/adapters/qq-official.ts:202-206 | a token is requested iff `now >= tokenExpiresAt` |
| QQOfficial.QQOfficialAdapter.Connect | src/adapters/qq-official.ts:71-94 | missing credentials fail with no request; otherwise one request, and iff a token was granted the adapter is connected and one more poll interval is armed, its handle overwriting any earlier one |
| QQOfficial.QQOfficialAdapter.Disconnect | src/adapters/qq-official.ts:99-106 | only the interval whose handle is stored is cleared; not connected |
| QQOfficial.QQOfficialAdapter.OnPollTick | src/adapters/qq-official.ts:260-281 | a poll tick makes the token valid first: a due token is requested, a grant is stored and a refusal is swallowed; the poll request is made unless the refresh was refused |
| QQOfficial.FailureText | src/adapters/qq-official.ts:71-135 | each failure's error message: the credentials text, the not-connected text, or the send-failure prefix with the API's message |
| QQOfficial.ConnectWithoutCredentials | test/adapters/qq-official.test.ts:16-22 | connecting without both credentials throws the error naming the missing settings, with no token request |
| QQOfficial.ReconnectLeaksPollInterval | src/adapters/qq-official.ts:71-106 | after two successful connects and a disconnect, one poll interval is still armed and cannot be cleared |
| QQOfficial.ConnectThenDisconnectStopsPolling | src/adapters/qq-official.ts:71-106 | one connect followed by a disconnect leaves no poll interval |
| QQOfficial.DuePollTicksRenew | src/adapters/qq-official.ts:202-281 | with the token due, each poll tick requests a token; after a refusal the next tick asks again |
| QQOfficial.QQOfficialAdapter.SendMessage | src/adapters/qq-official.ts:111-135 | refused when not connected or without a token; otherwise at most one post to the chosen endpoint, succeeding only on code 0 |
| QQOfficial.QQOfficialAdapter.HandleWebhookEvent | src/adapters/qq-official.ts:286-318 | the handler receives the webhook message iff one is made |
| Config.ParseBoolean | src/config.ts:18-21 | the default for a missing or empty value; otherwise true iff the lower-cased value is "true" or the value is "1" |
| Config.ParseBooleanCaseInsensitive | test/config.test.ts:14-17 | letter case does not matter |
| Config.ParseBooleanIgnoresDefault | src/config.ts:19-20 | a non-empty value ignores the default |
| Config.ParseBooleanOfPrinted | test/config.test.ts:14-27 | "true" and "false" read back as the boolean |
| Config.ParseNumber | src/config.ts:41-45 | the default for a missing or empty value or a NaN parse; otherwise the parsed integer |
| Config.ParseNumberOfPrinted | test/config.test.ts:35-38 | a printed integer reads back as itself, "0" included |
| Config.ParseNumberOfWord | test/config.test.ts:40-43 | text that does not start a number gives the default |
| Config.ParseNumbersAppend | src/config.ts:28 | parsing pieces distributes over concatenation, so order is kept |
| Config.DroppedPiece | test/config.test.ts:59-61 | a piece that does not parse is dropped and its neighbours kept |
| Config.ParseNumbersOfPrinted | test/config.test.ts:55-57 | pieces that trim to printed integers parse to those integers |
| Config.ParseNumberArray | src/config.ts:26-29 | undefined iff the value is missing or empty; never more numbers than pieces |
| Config.ParseNumberArrayOfList | test/config.test.ts:51-58 | a comma-joined list of padded printed integers reads back as the list |
| Config.ParseNumberArrayOfInts | src/config.ts:26-29 | a comma-joined list of printed integers reads back as the list |
| Config.ParseString | src/config.ts:34-36 | undefined for missing or empty input, otherwise the value |
| Config.ResolveMode | src/config.ts:72-85 | official whenever an app id is set, OneBot when only a URL is, otherwise the file's mode or OneBot |
| Config.BuildQQConfig | src/config.ts:65-102 | disabled gives only `enabled: false`; otherwise each field is the environment value, else the file's, else the default, with the resolved mode |
| Config.ValidateConfig | src/config.ts:175-217 | the messages are exactly those of the broken rules, once each and in rule order, and validation fails iff any rule is broken |
| Config.ValidatedModeHasEndpoint | src/config.ts:189-196 | a QQ configuration that passes validation has an app id and secret in official mode and a URL in OneBot mode |
| Config.ChooseQQAdapter | src/index.ts:87-120 | the mode, or official when an app id is set and OneBot otherwise, picks the adapter: official with an app id, OneBot with a URL; in every other case no adapter is made |
| Config.ValidatedConfigChoosesAdapter | src/index.ts:88-103 | a built QQ configuration that passes validation always gets an adapter, the official one iff an app id is set |
| Config.MaskSecret | src/config.ts:251-254 | up to eight characters become `****`; longer ones keep four characters at each end around `****` |
| Config.MaskHidesMiddle | src/config.ts:251-254 | secrets that agree on their ends mask alike, so the middle is never shown |
| OpenCodeClient.SessionIdFor | src/opencode/client.ts:41 | the id starts with `im-` |
| OpenCodeClient.SessionIdInjective | src/opencode/client.ts:41 | two messages share an id iff they have the same platform and user, whatever the group |
| OpenCodeClient.PlainTextKept | src/opencode/client.ts:125-127 | text with no escape character is not changed by either stripping pass |
| OpenCodeClient.ColourSequenceRemoved | src/opencode/client.ts:126 | a colour sequence is removed entirely |
| OpenCodeClient.TitleSequenceRemoved | src/opencode/client.ts:127 | a title sequence ended by BEL on the same line is removed entirely |
| OpenCodeClient.Clean | src/opencode/client.ts:125-128 | the cleaned output is no longer than the input and has no blank at either end |
| OpenCodeClient.FormatOutput | src/opencode/client.ts:123-137 | the no-output text for empty output, the cleaned output up to 4000 characters, otherwise the first 4000 and the truncation notice |
| OpenCodeClient.PlainOutputUnchanged | src/opencode/client.ts:123-137 | short, trimmed output with no escapes comes back unchanged |
| OpenCodeClient.Detail | src/opencode/client.ts:100 | stderr, else stdout, else the unknown-error text |
| OpenCodeClient.CloseReply | src/opencode/client.ts:91-102 | exit code 0 gives the formatted output; any other code gives the error prefix, the code and the detail |
| OpenCodeClient.FailedRunNamesCode | src/opencode/client.ts:99-101 | a failed run's reply names its code and stderr, else stdout, else the unknown-error text |
| OpenCodeClient.ConcatAppend | src/opencode/client.ts:74-80 | collecting chunks distributes over concatenation |
| OpenCodeClient.ChunkingIrrelevant | src/opencode/client.ts:74-80 | for chunks that are already decoded text, cutting a chunk in two does not change the collected text (the source decodes each byte chunk separately, which this does not cover) |
| OpenCodeClient.Collect | src/opencode/client.ts:71-80 | the collected text is the concatenation of the chunks |
| OpenCodeClient.Client.constructor | src/opencode/client.ts:28-32 | no processes pending |
| OpenCodeClient.Client.Spawn | src/opencode/client.ts:59-69 | the process is recorded under the message's session id |
| OpenCodeClient.Client.Finish | src/opencode/client.ts:82-111 | a close resolves with the close reply and an error rejects with it, both removing the entry; a timeout kills the process and rejects but leaves the entry |
| OpenCodeClient.Client.Cancel | src/opencode/client.ts:142-150 | true iff a process was pending, which is then killed and removed; otherwise nothing changes |
| OpenCodeClient.CancelAfterFinish | src/opencode/client.ts:142-150 | once the process has closed or failed, cancelling its session finds nothing and kills nothing |
| OpenCodeClient.CancelAfterTimeout | src/opencode/client.ts:82-89 | after a timeout and before the process closes, a cancel still finds the process and kills it a second time |
| OpenCodeClient.TimeoutThenClose | src/opencode/client.ts:82-89 | the close that follows a timeout removes the entry, so a later cancel finds nothing; the process was killed once |
| Cli.ParseArgs | src/cli.ts:57-85 | the loop computes the scan from the start with the defaults |
| Cli.FlagsIffSeen | src/cli.ts:64-72 | help and version are set iff such a flag is read as an option |
| Cli.ValueNeverReadAsOption | src/cli.ts:73-76 | the argument after `--config` or `-c` is never read as an option |
| Cli.NoLaterConfig | src/cli.ts:61-84 | with no config option from a point on, the path stays as it was |
| Cli.LastConfigWins | src/cli.ts:73-80 | the last config option read decides the path |
| Cli.ConfigAssignValue | src/cli.ts:78-80 | `--config=X` gives `X` when `X` holds no `=` |
| Cli.UnknownSkipped | src/cli.ts:77-80 | unknown arguments are skipped |
| Logger.IndexOf | src/utils/logger.ts:36-37 | the position of a level name, -1 for an unknown one |
| Logger.ShouldLog | src/utils/logger.ts:35-38 | an unknown configured level logs everything; otherwise a call is logged iff its level is not below the configured one |
| Logger.OwnLevelAndErrorsLogged | src/utils/logger.ts:35-38 | the configured level and errors are always logged |
| Logger.Monotone | src/utils/logger.ts:35-38 | logging is upward closed |
| Logger.ShouldLogOrder | src/utils/logger.ts:35-38 | with a known level, a call is logged iff it ranks no lower |
| Logger.SelectLevel | src/utils/logger.ts:56 | the argument, else `LOG_LEVEL`, else info |
| Logger.DefaultLevelFilters | src/utils/logger.ts:55-56 | by default, trace and debug are dropped and the rest is logged |

## Behaviour of the code worth knowing

- **A closed OneBot socket does not fail pending calls.** The close handler at `src/adapters/qq.ts:101-105` only clears the connected flag and schedules a reconnect. Calls still pending then settle only through their ten-second timeout. `OneBot.QQAdapter.OnClose` leaves `pending` as it was.
- **A second `connect` of the official adapter leaks a poll interval.** `startPolling` (`src/adapters/qq-official.ts:252-267`) overwrites the stored handle without clearing the interval it held, so `disconnect` stops only the newer one (`QQOfficial.ReconnectLeaksPollInterval`). The start-up code connects each adapter once.
- **Poll ticks renew the official token.** Every 30 s a poll makes an API call, which first makes the token valid. Once the token is due, each tick requests a new one, and a refusal is swallowed (`QQOfficial.QQOfficialAdapter.OnPollTick`).
- **`disconnect` does not prevent a reconnect.** The close event of the socket that `disconnect` closed (`src/adapters/qq.ts:116-126`) still schedules a reconnect (`OneBot.DisconnectThenClose`).

## Left out

- **Sockets, HTTP, child processes, timers and the clock.** They are events, parameters and log fields as described above. Not modelled: the URL building of the WebSocket address, the request headers, `spawn`'s arguments and environment, and the process's exit other than its code.
- **Parsing and printing JSON.** Frames arrive already decoded. A frame that does not parse is `Unparsable`. The body of the unknown-format and API-error messages is not modelled.
- **Fractional numbers, NaN and Infinity.** `parseInt` and `Number` are modelled for integer decimal text only. The allow-lists hold integers.
- `Config.ParseNumber`, `Config.ParseNumberArray` and `QQOfficial.CheckPermission`: these do not model double precision. JavaScript numbers are doubles, so `parseInt` (`config.ts:28,43`) and `Number(userId)` and `Number(guildId)` (`qq-official.ts:331,338`) round integers above 2^53. Two distinct long ids can then round to the same number, and the source admits an unlisted guild or user whose id collides with a listed one. The model's integers are exact and never collide.
- **UTF-16 and Unicode.**
  - String lengths and slices count characters, not UTF-16 code units.
  - Lower-casing folds ASCII letters only.
  - The UTF-8 decoding of stream chunks is not modelled. Chunks arrive as text.
  - `OpenCodeClient.ChunkingIrrelevant` holds only for decoded chunks. `client.ts:75,79` decode each byte chunk on its own, so a multi-byte character split across two chunks becomes replacement characters, and there chunking does change the text.
- **Logging, console output and `printConfigSummary`.**
  - `printConfigSummary` only prints.
  - `maskSecret` is modelled.
- **Config loading.** `loadConfig`, `.env` handling and the JSON config file loader read files. The file's QQ section is a parameter.
- **Other config fields.**
  - `buildLarkConfig` and `buildWeChatConfig` are modelled only through the fields validation reads.
  - The port, log-level and OpenCode settings are not modelled.
- **Code outside the core.**
  - `src/bridge/server.ts` and the start-up sequence of `src/index.ts` are not part of this model. Only the QQ adapter choice is.
  - `getMe` of the official adapter is not modelled: its only call is commented out.
  - The answer of the poll request is not modelled: `pollMessages` discards it. Its token refresh and the request are modelled by `OnPollTick`.
  - `checkAvailable` and `getAll` are not part of this model either.
- `OpenCodeClient.Client.Finish`: the events of one run are not ordered. A close that follows a timeout returns its reply, though the source's promise is already rejected and ignores it. Nothing stops a timeout after a close, which the source's `clearTimeout` rules out.
- **Shared session records.** Sessions are values rather than shared objects. The processor receives the busy record that the admission stored, which matches what the shared object holds at that point. Later changes to that object are not visible through the copy.
- **Send failures.** The router records each send attempt in `outbox`. Whether the adapter then succeeds is swallowed by the router and not modelled there.
- OneBot.QQAdapter.OnReconnectTimer: states only that one more socket is opened, not which one; `Connect` states which.
- QQOfficial.QQOfficialAdapter.SendMessage: states the post exactly only when no token refresh is due; with a refresh due, it states only that at most one post is made and at most two token requests.
- **Test suites.** They are stated as lemmas over all inputs rather than as the listed example values. The adapter-name test is the constructor's contract.
