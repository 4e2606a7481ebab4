# MiniOC relay core in Dafny

MiniOC is a Telegram bot. It relays each text message to an AI backend and
sends the answer back. It keeps every user's conversation in a SQLite table and
recovers from the `409 Conflict` Telegram returns when a second poller holds the
update stream. This project models the relay's four core files and proves
properties of the model:

- **src/ai.js** (module `Ai`):
  - `buildPrompt`;
  - backend selection from the `MINIOC_*` environment variables;
  - the MiniMax HTTP reply handling;
  - `callOpenCode`: its argument vector, its child environment, its event handlers (stdout, stderr, close, spawn error, the 60-second timer) and the line scan for the first `{type: "text", part: {text}}` record;
  - `processMessage`.
- **src/db.js** (module `Db`): the conversation table as a class, `ConversationStore`. The class holds the rows, the next row id and the state of the module-level connection handle. Every exported operation is a method or a function of it.
- **src/bot.js** (modules `Bot` and `Telegram`):
  - `initBot`, with its webhook reset and update drain;
  - the `/test409` and `/reset` commands;
  - the generic message handler;
  - the `polling_error` handler, with its 409 test and its three-attempt recovery loop;
  - `gracefulShutdown`.

  The Telegram client is a class, `Telegram.Client`. Every call takes the next reply from a script and appends itself to a log. Each handler is therefore a method over the client, specified by a function of the replies it meets.
- **src/logger.js** (module `Logger`): `formatLog`, the level-to-console mapping, and the write-or-report step of `writeToFile`.

Shared pieces:

- `JsValue` models the JavaScript values the code inspects: truthiness, property reads, and `${v}` display.
- `Ansi` is a hand-written matcher for the escape-sequence regex the relay uses twice (src/ai.js:111, src/bot.js:154), plus `String.prototype.trim`. It is proved sound, complete and longest-match against a declarative statement of the regex's language: what it removes at each position is a match, a match is found wherever one exists, and the one found is the longest, which is the match the regex engine's greedy quantifiers pick here.
- `Wrappers` holds `Option` and `Result`.

Outside effects become parameters:

- `JSON.parse` is a function parameter. It returns the parsed value, or the message of the SyntaxError it throws.
- The child process is a sequence of events.
- The HTTP exchange is one outcome: a body, a request error, or a timeout.
- The environment is a map.
- The Telegram replies are a script.

Where the code and the system's written design disagree, the model follows the code:

- **The escape-sequence strip is not idempotent.** Text without ESC or CSI characters passes through unchanged (`Ansi.StripAnsiPlain`). A second strip can still remove more, because deleting one sequence can join an earlier ESC with a later final character (`Ansi.StripAnsiNotIdempotent`).
- **No failure classification exists.** The code does no classification into authentication, rate-limit or command-format errors. A non-zero exit rejects with the stderr text, or with `opencode failed with exit code N`. Every failure reaches the user as the same apology.
- **History returns the earliest turns.** `getChatHistory` returns the earliest 20 turns of a user in ascending order, not the most recent 20 (`Db.ChatHistoryIsEarliest`). The history is passed to `buildPrompt`, which ignores it.
- **Storage errors are not propagated.** A storage error inside the message handler is caught like any other failure and answered with the apology.
- **The opencode test is stale.** processMessage.test.js:30-31 expects a `sh -c "yes | opencode ..."` command line. The code spawns `opencode` directly with an argument array (src/ai.js:80), and the model follows the code.

## Model

| member | source | states |
|---|---|---|
| JsValue.Member | src/bot.js:169 | a property read on a non-object, or on an object without that key, gives `undefined` |
| JsValue.OptMember | src/ai.js:117 | optional chaining never throws: on null or undefined it gives `undefined`, and anything else it gives is the object's own field under that key |
| JsValue.NatToString | src/logger.js:21-28 | the decimal text of a number is non-empty, all digits, and has no leading zero |
| JsValue.NatToStringRoundTrip | src/logger.js:21-28 | the decimal text reads back as the number it came from |
| JsValue.IntToString | src/logger.js:21-28 | the text is non-empty, starts with `-` exactly when the number is negative, and is digits after that sign |
| JsValue.IntToStringRoundTrip | src/logger.js:21-28 | the digits after the optional sign read back as the number's magnitude |
| JsValue.Display | src/logger.js:21-28 | a template literal shows a string value as the string itself |
| Ansi.PrefixRun | src/ai.js:111 | the maximal run of `[[()#;?]` characters from a position |
| Ansi.DigitRun | src/ai.js:111 | the maximal run of digits from a position |
| Ansi.ParamTail | src/ai.js:111 | a match of the parameter tail plus final character ends inside the string, after its start; it is the longest such match, by ParamTailLongest |
| Ansi.MatchAt | src/ai.js:111 | a match at position i starts with ESC or CSI, is at least two characters long and ends inside the string; it is the longest match at i, by MatchAtLongest |
| Ansi.ParamTailSound | src/ai.js:111 | what ParamTail reports is `(;[0-9]{0,4})*` followed by a final character |
| Ansi.IterationSound | src/ai.js:111 | one `;` and up to four digits before a parameter tail is again a parameter tail |
| Ansi.EscapeSequenceOf | src/ai.js:111 | introducer, prefix run, parameters and final character together are one match of the pattern |
| Ansi.ParamsSound | src/ai.js:111 | one to four digits before a parameter tail form the optional parameter group |
| Ansi.SoundWithParams | src/ai.js:111 | a match with a parameter group is in the pattern's language |
| Ansi.SoundWithoutParams | src/ai.js:111 | a match made of introducer, prefix run and final character is in the pattern's language |
| Ansi.MatchAtSound | src/ai.js:111 | everything the matcher removes is a whole match of the regex |
| Ansi.PrefixRunExact | src/ai.js:111 | a maximal run of prefix characters is exactly what PrefixRun measures |
| Ansi.MatchAtComplete | src/ai.js:111 | wherever the regex matches, the matcher reports a match |
| Ansi.ParamTailLongest | src/ai.js:111 | wherever `(;[0-9]{0,4})*` plus a final character matches from r, ParamTail reports a match ending there or later |
| Ansi.MatchAtLongest | src/ai.js:111 | wherever a match of the whole regex at i ends, the match MatchAt reports ends there or later, so the replace removes the longest match |
| Ansi.StripAnsi | src/bot.js:154 | the replace never lengthens the text, and a first character that is not ESC or CSI stays first |
| Ansi.StripKeepsPlainHead | src/bot.js:154 | a character that starts no escape sequence is copied, and the replace continues right after it |
| Ansi.StripFromPlain | src/bot.js:154 | the global replace copies a suffix free of ESC and CSI through unchanged |
| Ansi.StripAnsiPlain | src/bot.js:154 | stripping text that has no ESC or CSI returns it unchanged |
| Ansi.CleanPlain | src/bot.js:154 | on such text, strip-then-trim is just trim |
| Ansi.StripFromPlainStretch | src/bot.js:154 | a plain stretch is copied through, and the replace resumes after it |
| Ansi.StripAnsiNotIdempotent | src/bot.js:154 | a concrete string whose second strip removes more than its first |
| Ansi.SkipSpace | src/ai.js:111 | the first character that is not white space at or after a position |
| Ansi.SkipSpaceBack | src/ai.js:111 | walking back from j, the end of the last character that is not white space |
| Ansi.Trim | src/bot.js:154 | trim (here and at src/ai.js:111) gives a slice of the input whose dropped ends are all white space and whose own first and last characters are not, which makes that slice the only possible result |
| Ansi.Clean | src/bot.js:154 | strip-then-trim never lengthens the text and leaves it empty or without white space at either end |
| Ansi.TrimUnpadded | src/ai.js:111 | a string without leading or trailing white space is its own trim |
| Ansi.GreenSampleMatches | processMessage.test.js:67-78 | both colour codes of the tested output are matched at the expected positions |
| Ansi.GreenSampleStrip | processMessage.test.js:67-78 | stripping the tested output leaves `Green text` |
| Ansi.GreenTextSample | processMessage.test.js:67-78 | cleaning the tested output gives `Green text` |
| Ai.BuildPrompt | src/ai.js:5-7 | the prompt is `User: `, then the message verbatim, then the fixed request line |
| Ai.PromptRoundTrip | src/ai.js:5-7 | the message can be recovered from the prompt, so nothing of it is lost or altered |
| Ai.EnvOr | src/ai.js:140-141 | the value is the variable's or the default; it is empty exactly when both are; a set, non-empty variable always wins (`\|\|` semantics) |
| Ai.SelectBackend | src/ai.js:139-150 | no key means no backend; an `opencode/` model means OpenCode; anything else means MiniMax with the base URL and model defaults |
| Ai.DefaultModelUsesHttp | src/ai.js:139-150 | with a key and no model set, the HTTP endpoint is used with `MiniMax-M2.5` |
| Ai.OpenCodeArgs | src/ai.js:64-70 | `run --format json`, then `--model m` when m is non-empty, then `-- prompt` |
| Ai.PromptIsPositional | src/ai.js:64-70 | no `--` occurs before the final separator, so the prompt is always positional |
| Ai.ChildEnv | src/ai.js:72-76 | the parent's variables are kept, and the OpenCode base-URL and token variables are replaced by the relay's own, or dropped when those are unset |
| Ai.NewlineIndex | src/ai.js:114 | the first newline's index |
| Ai.SplitLines | src/ai.js:114 | split gives at least one piece, and no piece holds a newline |
| Ai.SplitLinesRoundTrip | src/ai.js:114 | joining the pieces with newlines gives the original text back |
| Ai.FirstTextPart | src/ai.js:113-124 | a text the scan finds is always truthy |
| Ai.OpenCodeReply | src/ai.js:111-126 | the OpenCode reply is a truthy text or the cleaned output itself, and is never empty when the cleaned output is not |
| Ai.FirstTextPartAt | src/ai.js:113-124 | the scan is decided by the first line that is a text record or a parse failure |
| Ai.FirstTextPartNone | src/ai.js:113-124 | when no line is a text record and none fails to parse, nothing is found |
| Ai.FirstTextPartFound | src/ai.js:113-124 | a found text comes from a text record preceded only by ordinary records |
| Ai.ScanLines | src/ai.js:113-126 | the loop with its `break` and `catch` gives the first text record's text, or the cleaned output |
| Ai.FirstDecisive | src/ai.js:86-133 | the first close, spawn-error or timer event, with none before it |
| Ai.ExitOutcome | src/ai.js:102-127 | a non-zero or null exit rejects with stderr or the exit-code message; exit 0 resolves with the scanned reply of the cleaned stdout |
| Ai.SpawnFailure | src/ai.js:86-91 | a spawn failure reads `Failed to spawn opencode: ` and then always a reason: the error's message when it has one |
| Ai.DecisiveOutcome | src/ai.js:86-133 | only a close with exit code 0 resolves; the timer rejects with the timeout message, and a spawn error with a non-empty message |
| Ai.Settlement | src/ai.js:82-133 | the promise stays pending exactly when no close, spawn error or timer event occurs; when the timer comes first it rejects with the timeout message; a resolution needs a close with exit code 0 among the events |
| Ai.RunChild | src/ai.js:82-133 | running the handlers in order settles as the first settling event decides, and kills the child once exactly when the timer wins |
| Ai.SettlementIsFinal | src/ai.js:82-133 | events after settlement change neither the outcome nor the kill |
| Ai.ExitBeforeTimerNoKill | src/ai.js:86-133 | a close or spawn error before the timer clears it, so the child is never killed |
| Ai.FailedExitIgnoresStdout | src/ai.js:105-109 | a failed exit rejects whatever stdout holds |
| Ai.InterpretReply | src/ai.js:33-48 | a parse failure, a null result and a truthy status code reject with their messages; otherwise a truthy `reply` resolves, and failing that the raw body |
| Ai.HttpAnswerNeedsResponse | src/ai.js:30-55 | only a response can resolve, with a truthy `reply` or the raw body; a request timeout always rejects with `API request timed out` |
| Ai.HttpResolvedReply | src/ai.js:40-44 | a resolved HTTP answer is a truthy `reply` or the body itself |
| Ai.Dispatch | src/ai.js:137-167 | which outside call is made: none without a key, OpenCode with its args and env, or a POST with bearer key, model and the prompt as the one user message |
| Ai.Answer | src/ai.js:137-174 | the missing-key rejection, the child's settlement, or the HTTP outcome, by backend |
| Ai.MissingKeyContactsNothing | src/ai.js:143-145 | without a key nothing is contacted, and the answer depends on neither backend |
| Ai.ProcessMessage | src/ai.js:137-174 | the method makes the call Dispatch names and settles as Answer says |
| Db.Limit | src/db.js:41-49 | `LIMIT n` keeps a prefix of at most n rows, and a negative limit keeps all of them |
| Db.WithoutUser | src/db.js:52-55 | deleting a user leaves no row of theirs and never adds rows |
| Db.ConversationStore.constructor | src/db.js:5-6 | the store starts with its existing rows and an unassigned handle |
| Db.ConversationStore.InitDatabase | src/db.js:8-30 | the handle opens and the existing rows are kept (`IF NOT EXISTS`) |
| Db.ConversationStore.AddMessage | src/db.js:36-39 | with an open handle, one row is appended with the next id; otherwise the store reports the handle error and nothing changes |
| Db.ConversationStore.GetChatHistory | src/db.js:41-50 | succeeds iff the handle is open; then gives the user's turns in table order cut to `limit` (`Limit(UserTurns(rows, u), limit)`), so at most `limit` long and all of them when they fit |
| Db.ConversationStore.ClearChatHistory | src/db.js:52-55 | with an open handle, exactly the user's rows are removed; otherwise an error and no change |
| Db.ConversationStore.ClearAllConversations | src/db.js:57-59 | with an open handle the table empties; otherwise an error and no change |
| Db.ConversationStore.CloseDatabase | src/db.js:61-65 | an assigned handle becomes closed, an unassigned one stays unassigned, and the rows are kept |
| Db.UserTurns | src/db.js:41-50 | a user's history is never longer than the table, and is empty for a user with no rows |
| Db.UserTurnsAppend | src/db.js:41-50 | appending a row adds its turn to its own user's history only |
| Db.UserTurnsAre | src/db.js:41-50 | a user's history holds exactly that user's rows, in table order, as (role, content) |
| Db.WithoutOthersKeepsAll | src/db.js:41-50 | the rows the query selects include every row of the user and come only from the table |
| Db.HistoryOfInserts | src/db.js:36-50 | after a run of inserts for u, u's history ends with those turns verbatim, and everyone else's is unchanged |
| Db.ClearEmptiesUser | src/db.js:52-55 | after clearing, the user's history is empty |
| Db.ClearKeepsOthers | src/db.js:52-55 | clearing one user leaves every other user's history as it was |
| Db.ClearIdempotent | src/db.js:52-55 | clearing twice is clearing once |
| Db.WithoutUserKeepsIds | src/db.js:17-55 | deletion keeps ids increasing and below the next id, and keeps only rows that were there |
| Db.HistoryIsEarliest | src/db.js:41-50 | with more turns than the limit, the limited list is the earliest `limit` turns |
| Db.ChatHistoryIsEarliest | src/db.js:41-50 | `getChatHistory` with the default limit gives a user's earliest 20 turns when there are more, and an empty list for an unknown user |
| Telegram.ErrorText | src/bot.js:29-37 | a failed call reports its own error message; the text is `Timeout` exactly when the racing timer won or the error itself said so |
| Telegram.Client.constructor | src/bot.js:24 | a new client holds the given reply script and an empty log |
| Telegram.Client.Invoke | src/bot.js:29-32 | a call gets the next scripted reply, consumes it, and is logged |
| Telegram.Client.Sleep | src/bot.js:52 | a pause is logged and consumes no reply |
| Bot.Routed | src/bot.js:134-143 | the generic handler goes on exactly when the sender is known and the text has a first character that is not `/` |
| Bot.LeadingCommand | src/bot.js:81-143 | a message starting with `/reset` or `/test409` fires that command and never reaches the AI |
| Bot.EmbeddedCommand | src/bot.js:106-143 | `please /reset` fires `/reset` and is also relayed to the AI, since the command regexes are unanchored |
| Bot.Is409 | src/bot.js:169 | only an object can be a 409, and `code === 409` always makes it one |
| Bot.Is409WithoutResponse | src/bot.js:169 | without a response, a 409 means `code === 409`, and the string `"409"` does not count |
| Bot.Is409FromResponseBody | src/bot.js:169 | a response body with `error_code` 409 makes the error a 409, whatever its code |
| Bot.DrainTrace | src/bot.js:180-186 | the drain fetches, and confirms one past the last id exactly when a non-empty batch came back |
| Bot.DrainConfirmsBatch | src/bot.js:182-184 | the confirming offset lies above every fetched id and is the last id plus one |
| Bot.Drain | src/bot.js:180-186 | the method's calls, consumed replies and acknowledged offset are those of DrainTrace |
| Bot.AttemptBracketed | src/bot.js:173-190 | an attempt always starts with `stopPolling`; a successful one then deletes the webhook, pauses, and ends with `startPolling` |
| Bot.RecoveryRestartsLast | src/bot.js:172-197 | recovery starts with `stopPolling`, and a successful recovery ends with `startPolling` |
| Bot.RecoveryAttempt | src/bot.js:173-190 | one attempt's calls and verdict are those of its trace |
| Bot.RecoveryRound | src/bot.js:172-197 | the loop from a given attempt number on follows its trace and only appends to the log |
| Bot.OnPollingError | src/bot.js:168-202 | a non-409 error is only logged and changes nothing; a 409 runs the recovery and reports recovered or gave up |
| Bot.RecoveryUnfold | src/bot.js:172-197 | a successful or last attempt ends recovery; otherwise a back-off pause and the next attempt follow |
| Bot.AttemptCounts | src/bot.js:173-190 | each attempt stops polling once and never backs off |
| Bot.RecoveryCounts | src/bot.js:172-197 | polling is stopped between one and three times, and there is one back-off fewer than attempts |
| Bot.RecoveryBounded | src/bot.js:172-197 | one 409 triggers at most 3 attempts and at most 2 back-offs |
| Bot.AttemptDecidedByStart | src/bot.js:180-190 | once stop and delete succeed, the attempt succeeds exactly when `startPolling` does |
| Bot.UnfruitfulDrainNeverFailsAttempt | src/bot.js:180-188 | an empty or failed fetch does not fail the attempt |
| Bot.UnconfirmedDrainNeverFailsAttempt | src/bot.js:180-188 | a failed confirming fetch does not fail the attempt |
| Bot.CleanupTrace | src/bot.js:41-74 | the cleanup starts with `setWebHook('')`, never starts polling, and when the reset got through it deleted the webhook and paused |
| Bot.StartupTrace | src/bot.js:7-78 | a missing token makes no call; a started bot called `getMe` first and `startPolling` last, and polling is started exactly when the bot started |
| Bot.Cleanup | src/bot.js:41-74 | the webhook reset and drain make the calls and pauses of their trace, and report whether the reset got through |
| Bot.InitBot | src/bot.js:7-78 | startup makes the calls of its trace and reports started or the error it threw |
| Bot.CleanupNeverStartsPolling | src/bot.js:41-74 | the cleanup phase never starts polling |
| Bot.StartupFailsOnlyEarly | src/bot.js:8-37 | a missing token fails before any call, and startup succeeds iff there is a token and `getMe` answers |
| Bot.StartupPollsOnce | src/bot.js:7-78 | a started bot has started polling exactly once, as its last call; a failed startup never has |
| Bot.Test409Body | src/bot.js:91-100 | the try block fails only with a failed reply, and on success ends with the success message |
| Bot.Finish | src/bot.js:96-127 | after a command's try block, the success or failure message is sent as Conclude says |
| Bot.Test409Block | src/bot.js:91-100 | the method's calls and failure are those of Test409Body |
| Bot.OnTest409 | src/bot.js:81-103 | the `/test409` handler makes the calls of its trace and reports its outcome, including a rejected send that escapes the listener |
| Bot.ResetBody | src/bot.js:111-124 | the reset try block fails only with a failed reply, and on success ends with the success message |
| Bot.ResetBlock | src/bot.js:111-124 | the method's calls and failure are those of ResetBody |
| Bot.OnReset | src/bot.js:106-128 | the `/reset` handler makes the calls of its trace and reports its outcome, including a rejected send that escapes the listener |
| Bot.ConcludeAnswers | src/bot.js:96-127 | a command that got past its intro ends with the success message exactly when its try block succeeded, and otherwise with the failure prefix plus the error message; the outcome is reported unless that last send itself rejected |
| Bot.Test409Answers | src/bot.js:81-103 | `/test409` always ends with a message to the chat: the success message, the failure prefix plus the reported error, or the send whose rejection escaped |
| Bot.ResetAnswers | src/bot.js:106-128 | `/reset` always ends with a message to the chat: the success message, the failure prefix plus the reported error, or the send whose rejection escaped |
| Bot.AnswerShape | src/bot.js:152-165 | after the AI settles: no turns and only the apology for a failure or a non-string reply; otherwise the user's text and an assistant turn are stored and that turn's text is sent first; an escape is always the apology's |
| Bot.ConverseShape | src/bot.js:145-165 | a relayed message first gets the typing indicator; turns are stored only with an open store and a settled AI call; an escape is always the apology's |
| Bot.Respond | src/bot.js:152-165 | after the AI settles, the method stores and sends as AnswerTrace says, and keeps the store valid |
| Bot.OnMessage | src/bot.js:130-166 | the handler's calls, stored turns and AI use are those of ExchangeTrace |
| Bot.Converse | src/bot.js:145-165 | for a relayed message: typing, history, AI call, then answer or apology, as ConverseTrace says |
| Bot.FilteredMessageIsInert | src/bot.js:134-143 | a message without text, or one starting with `/`, causes no call, no storage and no AI use, and throws exactly when it has no sender |
| Bot.EscapeMeansLostApology | src/bot.js:134-165 | an error escapes the message handler only when the message has no sender, or when the apology, its last call, was rejected |
| Bot.ExchangeStoresWhatItSends | src/bot.js:154-159 | when turns are stored, they are the user's text and the cleaned answer, and the cleaned answer is the text sent |
| Bot.FailedAnswerApologises | src/bot.js:162-165 | a failed AI call stores nothing and sends only the apology after the typing indicator |
| Bot.ExchangeHistory | src/bot.js:156-157 | after an exchange, the sender's history ends with the stored turns and no one else's history changes |
| Bot.GracefulShutdown | src/bot.js:205-213 | polling is stopped once, and the exit code is 0 when that succeeded and 1 otherwise |
| Logger.Tag | src/logger.js:44-74 | every level tag is at least four upper-case letters |
| Logger.StreamOf | src/logger.js:44-74 | `warn` writes to the warning stream and `error` to the error stream, and no other level does |
| Logger.Header | src/logger.js:18 | the header is `[`, the timestamp, `] [`, the tag, `] ` and the message, in that order and with nothing else |
| Logger.PassedError | src/logger.js:44-74 | only `warn` and `error` pass their error to the formatter |
| Logger.FormatLog | src/logger.js:17-33 | the line starts with `[ts] [LEVEL] message`, and is exactly that when the error is falsy |
| Logger.Fields | src/logger.js:20-29 | a falsy error has no detail fields; a truthy one has three, or five when it carries a truthy `response.body` |
| Logger.ShownMembers | src/logger.js:20-29 | a field is printed iff it is one of the error's fields and its value is truthy |
| Logger.DetailIsShownField | src/logger.js:21-28 | one detail line is printed exactly when its value is truthy |
| Logger.ErrorLinesRender | src/logger.js:20-23 | the code, message and stack lines are the truthy ones of those three fields, in order |
| Logger.TelegramLinesRender | src/logger.js:25-29 | the Telegram lines are the truthy ones of the body's `error_code` and `description` |
| Logger.DetailLinesRender | src/logger.js:20-29 | the detail lines are all of the error's truthy fields, in order |
| Logger.FormatLogRendersShownFields | src/logger.js:17-33 | a formatted line is its header followed by one `└─` line per truthy field |
| Logger.TelegramLinesNeedBody | src/logger.js:25-29 | without a truthy `response.body`, no Telegram line is printed |
| Logger.LogEffects | src/logger.js:35-74 | each call prints the bare message to its level's console stream, then appends `formatLog(level, message, error)` plus a newline, with the error passed only by `warn` and `error`, or reports the write failure on stderr |
| Logger.LoggedLine | src/logger.js:35-74 | info, debug and success append the bare header; warn and error append the header followed by one detail line per truthy field of the error |
| Logger.TagsDistinct | src/logger.js:44-74 | the five level tags are pairwise distinct |
| Logger.TelegramErrorSample | logger.test.js:75-84 | the tested 409 error prints its code, its message and both Telegram lines |

## Left out

- Real I/O is left out: sockets, the SQLite file, `fs`, `child_process` and the console. The model keeps only what the code sends, stores and writes, as values, logs and effects.
- Timers, the clock and the lengths of the pauses are left out (3 s, 5 s, 10 s, 35 s, 60 s). Pauses appear as steps in the client's log, and the timers that race calls appear as replies (`TimedOut`) or events (`TimeoutFired`).
- `TimedOut` stands for the racing 10-second timer of src/bot.js:29-32 and 41-49 winning. An exhausted reply script also answers `TimedOut`.
- Telegram.ErrorText: a call without a racing timer (src/bot.js:92-99, 112-126) that hits the library's 10-second request timeout (src/bot.js:19) rejects with the library's own error message. The model reports such a timeout, like every exhausted script, as `Timeout`, so a `/test409` or `/reset` failure report would then read differently.
- An error that escapes an async listener is recorded, not followed. The cases are a rejected intro send (src/bot.js:84, 109), a rejected send inside a `catch` (src/bot.js:99, 126, 164) and a message without `from` (src/bot.js:134). `Bot.CommandOutcome.Escaped` and `Bot.Exchange.escaped` record that the rejection leaves the listener unhandled. What Node then does is not modelled: src/index.js registers no `unhandledRejection` handler, and under Node's default the process ends.
- Concurrency between handlers is left out: a polling error arriving during a message exchange, say. Each handler runs alone from a given script.
- Timestamps (`getTimestamp`) are a parameter of the formatter.
- History order is taken to be insertion order. The source sorts by a one-second `CURRENT_TIMESTAMP` column, so rows written in the same second may tie.
- JavaScript numbers are modelled as integers. Fractions, `NaN` and values past 2^53 are left out.
- `Logger.TelegramErrorSample`: the sample error has no `stack` field. A real `Error` carries a stack, which would add one more line.
- The `console.log`, `console.warn` and logger calls that only report progress inside src/ai.js and src/bot.js are left out. `Logger` models the logger itself.
- `ensureLogDir` and the exact error of a failed `appendFileSync` are left out. A write is either appended or reported with a reason string.
- The signal name in `gracefulShutdown` is left out, and `process.exit` is modelled as its exit code. Registering `SIGINT` and `SIGTERM` is left out.
- The Markdown `parse_mode` option of `sendMessage` is left out. A send that Telegram rejects is a failed reply.
- URL resolution (`new URL`), the request headers other than the bearer token, and `Content-Length` are left out. A request is described by its base URL, path, authorization and payload.
- How `getMe` formats the bot's name in its log line is left out. Only whether `getMe` answered matters.
- Message text is a string. Telegram messages whose `text` is not a string (never the case in the Bot API) are left out.
- src/index.js and src/chat.js are not part of this model. They load the environment, open the store and call `initBot`.
