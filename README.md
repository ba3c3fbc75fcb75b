# discosaurus network core, modelled in Dafny

discosaurus is a Discord client library for Deno written in TypeScript. Its
network core has four parts, and this project models each of them:

- **The rate limiter** (`src/util/ratelimits.ts`). Requests are serialised per
  bucket key. A flush per bucket drains that bucket's FIFO queue. Before each
  attempt it waits out three cooldowns: the bucket's own, the cooldown of the
  group the bucket is aliased to, and the global one. A rate-limited attempt
  goes back to the tail of the queue. Every attempt copies the reported limits
  into the records.
- **The HTTP layer** (`src/network/api.ts`). It builds the URL, upper-cases
  the verb, and sets the four fixed headers. It classifies each response for
  the limiter and throws on a non-2xx status.
- **The gateway** (`src/network/gateway.ts` and
  `src/network/gateway_interface.ts`). One *generation* is one websocket
  connection with its four variables: `heartbeat`, `acked`, `seq` and
  `sessionId`. It reacts to socket events and to heartbeat-timer ticks. It
  talks to the user through a shared broadcaster, the `Signaler` of
  `src/util/signals.ts`. Its command handlers (presence, voice state, member
  requests) are registered on that broadcaster under internal `__`
  signal names.
- **The endpoint-wrapper generator** (`gen/gen_endpoints.ts`). It turns the
  argument schemas of each endpoint into TypeScript parameter declarations,
  groups the imports by module, and assembles each wrapper's call of
  `makeRequest`.

Each source file keeps its form in the model:

- The stateful objects are classes:
  - `RateLimits.RateLimiter`, with one field per field of the TypeScript
    class;
  - `Signals.Signaler`, holding the listener table;
  - `Gateway.Generation`, holding the variables of the `gateway` closure.
- Their methods are proved against pure specification functions:
  - `RateLimits.Flush`, `Run` and `Step` for `flushQueue`;
  - `Gateway.React` and `ReactAll` for the socket loop.
- The properties the library promises are lemmas about those functions.
- Pure code stays pure: classification, request shaping, payloads and the
  generator's text assembly.

Everything outside the model is a parameter:

- Time is an integer clock in milliseconds.
- What a callback returns or whether it throws, and how long it takes, comes
  from a sequence of `Outcome`s.
- The events a generation receives, including the timer ticks, form a
  sequence of `Input`s.
- What a generation does (frames sent, closes, timer changes, the next
  generation scheduled, signals emitted) is a list of `Effect`s.

`JSON.stringify`, `encodeURI(v.toString())` and the `URLSearchParams`
serialisation are function parameters of `Api.BuildRequest`.

Behaviours of the code worth noting:

- A missed heartbeat acknowledgement only closes the socket with code 2000
  and stops the timer. It does not schedule a resume (`Gateway.TicksNeverReopen`).
- A websocket close event ends the loop after logging it, and `disconnect` is
  not emitted then. Only the end of the socket stream emits it
  (`Gateway.SocketEvents`).
- The group record is looked up once, when a flush starts. An alias learned
  during a flush therefore takes effect only at the next flush
  (`RateLimits.RunFrame`).
- The limiter's "bucket is exhausted" state after a 429 is overwritten at
  once by the reported `remaining` (`RateLimits.ThrottleZeroingOverwritten`).
  With the API's classifier, `remaining` is always reported
  (`Api.ClassifiedThrottleKeepsHeader`).
- A callback that throws (a `fetch` that rejects on a network error) ends the
  flush with its item shifted out and never resolved, and the lock is never
  released. Every later flush of that bucket returns at once, so the bucket's
  queue is stuck (`RateLimits.ThrowKeepsLock`, `RateLimits.LockedBucketStaysLocked`).
- An optional query argument the caller leaves out is `undefined` in the query
  object (`JNull` in the model, which stands for both `undefined` and `null`),
  and `v.toString()` throws a `TypeError` before the request is queued
  (`Api.OmittedQueryArgumentFails`).
- A DISPATCH whose event name is `__GATEWAY_CLOSE` is emitted as the close
  signal: it reaches the user's close handlers, as `close()` would
  (`Gateway.DispatchCanClose`).
- In `emit`, the result of `out.concat(...)` is discarded. The `any` handlers
  are called, but the returned promise does not wait for them
  (`Signals.Signaler.Emit`).

## Model

| member | source | states |
|---|---|---|
| Values.Trim | src/network/api.ts:34 | the result is a slice of the input; only ECMAScript white space is dropped at either end; the result neither starts nor ends with white space |
| Values.TrimIdempotent | src/network/api.ts:34 | trimming a trimmed token changes nothing |
| Values.BotAuthorization | src/network/api.ts:34 | the credential is `Bot ` followed by exactly the trimmed token |
| Values.BotAuthorizationTrimmed | src/network/gateway.ts:115 | the token read back from the credential is already trimmed and equals the trimmed token |
| Values.Member | src/network/gateway.ts:108-109 | a member of a non-object is missing; a present member is one of the object's fields, and the last duplicate wins |
| Values.LastValueAt | src/network/gateway.ts:108 | the value of a key is the one at its last occurrence in the parsed text |
| Values.Lower | src/network/gateway.ts:154 | the result has the input's length, and each character is lower-cased on its own |
| Values.Upper | src/network/api.ts:32 | the result has the input's length, and each character is upper-cased on its own |
| Values.DigitsRoundTrip | src/network/api.ts:48 | the decimal digits of a number denote that number, and have no leading zero except for 0 itself |
| Values.IntToStringRoundTrip | src/network/api.ts:48 | the text of an integer is non-empty, starts with `-` exactly for a negative number, and its digits denote the number's magnitude |
| Functions.ObjectEntries | src/util/functions.ts:6-8 | one pair per own key, in key order, each with that key's value; keys distinct; exactly the object's keys |
| Functions.ObjectEntriesRoundTrip | src/util/functions.ts:6-8 | rebuilding an object from its entries gives the same object back |
| Functions.FromEntriesShape | src/util/functions.ts:6-8 | the object rebuilt from entries has their keys in order, exactly those keys, and with distinct keys each entry's value |
| Functions.RoundTripKeys | src/util/functions.ts:6-8 | the rebuilt object has the same keys in the same order |
| Functions.RoundTripValues | src/util/functions.ts:6-8 | the rebuilt object holds the same value under every key, and no other key |
| Functions.ObjectEntriesEmpty | src/util/functions.ts:6-8 | there are no entries exactly when the object is empty |
| Signals.CallAll | src/util/signals.ts:15 | each handler is called exactly once, in list order, with the given arguments |
| Signals.Signaler.constructor | src/util/signals.ts:7 | a new broadcaster has no handlers |
| Signals.Signaler.Emit | src/util/signals.ts:14-20 | the handlers of the name are called first, in order, with the arguments; the `any` handlers follow, with the name appended, unless the name is internal; only the first group is awaited |
| Signals.Signaler.Connect | src/util/signals.ts:30-33 | the handler is appended to the name's list, which is created when absent; no other list changes |
| Signals.Signaler.Clear | src/util/signals.ts:39-41 | the name's entry is removed and nothing else |
| Signals.ConnectAppends | src/util/signals.ts:30-33 | after connecting, the list ends with the new handler and starts with the old list; every other entry is unchanged |
| Signals.InternalSkipsAny | src/util/signals.ts:16-17 | a `__` signal reaches only its own handlers, and all of them are awaited |
| Signals.UnknownReachesOnlyAny | src/util/signals.ts:15-17 | a public signal with no handlers reaches only the `any` handlers, with the name appended, and nothing is awaited |
| Signals.EmitAnyTwice | src/util/signals.ts:15-17 | emitting `any` calls every `any` handler twice: plainly, then with `"any"` appended |
| RateLimits.Enqueue | src/util/ratelimits.ts:36-37 | the item is appended to the bucket's queue, which is created when absent; other queues are unchanged |
| RateLimits.Begin | src/util/ratelimits.ts:53-56 | the lock holds the start time; a missing record is created with 999 remaining and a reset of now; an existing record is kept |
| RateLimits.GroupOf | src/util/ratelimits.ts:59 | a group is consulted exactly when the bucket has a non-empty alias and the aliased key has a record |
| RateLimits.Step | src/util/ratelimits.ts:61-97 | one iteration keeps the records and queues the flush needs, records exactly one attempt, reports a throw exactly when the callback threw, and leaves the locks unchanged |
| RateLimits.Run | src/util/ratelimits.ts:61-98 | the loop stops only when the queue is empty, the outcomes run out or a callback threw, making at most one attempt per outcome; locks are unchanged |
| RateLimits.RunStep | src/util/ratelimits.ts:61-98 | with an item and an outcome, the loop performs one iteration; it ends there when the callback threw and continues otherwise |
| RateLimits.Flush | src/util/ratelimits.ts:52-101 | a locked bucket does nothing; otherwise the bucket is locked at the start time, and unlocked at the end exactly when its queue is empty and no callback threw; other buckets' locks are untouched |
| RateLimits.RunLog | src/util/ratelimits.ts:71-83 | the attempts carry the callbacks' outcomes in order; each is resolved exactly when its callback returned and was not rate limited; only the last may have thrown, and the run reports a throw exactly then |
| RateLimits.FlushLog | src/util/ratelimits.ts:52-101 | the same for a whole flush: at most one attempt per outcome, in order, resolved exactly when returned and not rate limited, ending with a throw exactly when the flush threw |
| RateLimits.StepTakesHead | src/util/ratelimits.ts:71-83 | the head item is attempted with its outcome; a resolved item leaves the queue; a rate-limited one returns to the tail, so the queue keeps its length; a thrown one leaves the queue unresolved; other queues are untouched |
| RateLimits.StepWaitsOutCooldowns | src/util/ratelimits.ts:62-69 | the attempt never starts before now; an exhausted bucket waits until its reset plus 2000 ms; a pending global reset waits until it plus 2000 ms; an exhausted group waits at least until its reset |
| RateLimits.StepRefreshesRecords | src/util/ratelimits.ts:82-92 | after a returned callback, the bucket's record and its group's record take each reported field and keep the old value for a field not reported; a thrown callback changes no record; no other record changes |
| RateLimits.StepGroupConverges | src/util/ratelimits.ts:86-92 | when both fields are reported, the bucket and its group end with identical records |
| RateLimits.ThrottleZeroingOverwritten | src/util/ratelimits.ts:82-86 | after a rate-limited attempt, `remaining` is 0 only when no `remaining` was reported |
| RateLimits.StepGlobalReset | src/util/ratelimits.ts:66-95 | the global reset is cleared before the attempt; after a returned callback it takes a truthy reported reset (max-merged with 0); after a throw it stays 0 |
| RateLimits.StepAlias | src/util/ratelimits.ts:96-97 | a truthy group reported by a returned callback becomes the bucket's alias; otherwise the alias map is unchanged; other aliases never change |
| RateLimits.RunFrame | src/util/ratelimits.ts:58-98 | a flush changes only its bucket's queue, its bucket's and its group's records, and its bucket's alias |
| RateLimits.RunKeys | src/util/ratelimits.ts:61-98 | the loop adds and removes no queue and no record |
| RateLimits.RunInOrder | src/util/ratelimits.ts:61-83 | without throttling, items resolve in submission order with their own results, and the queue keeps exactly the items not yet reached |
| RateLimits.ThrottledItemRetried | src/util/ratelimits.ts:71-83 | a rate-limited item that is alone in its queue is attempted again next, unresolved the first time |
| RateLimits.ReportedCooldownRespected | src/util/ratelimits.ts:62-87 | after an attempt reports an exhausted bucket that resets at T in the future, the next attempt starts no earlier than T + 2000 |
| RateLimits.FlushDrainsInOrder | src/util/ratelimits.ts:52-101 | without throttling and with enough outcomes, every queued item resolves in order, the queue empties and the lock is released |
| RateLimits.FlushFrame | src/util/ratelimits.ts:56-98 | a flush creates no record but its bucket's own, and touches no other record except its group's, and no other queue |
| RateLimits.AliasWithoutRecordIgnored | src/util/ratelimits.ts:59 | an alias to a key without a record is not consulted, and no record is created for it |
| RateLimits.ThrowKeepsLock | src/util/ratelimits.ts:53-100 | a flush throws exactly when its last attempt's callback threw; that item is left unresolved and the bucket stays locked |
| RateLimits.LockedBucketStaysLocked | src/util/ratelimits.ts:53 | a locked bucket stays locked whatever bucket is flushed next, and a flush of it changes nothing and attempts nothing |
| RateLimits.LimitOnLockedBucket | src/util/ratelimits.ts:34-40 | a `limit` call on a locked bucket queues its item at the tail and attempts nothing |
| RateLimits.ThrowStrandsQueue | src/util/ratelimits.ts:53-100 | with two items queued and a first callback that throws, the flush ends locked with the second item queued, and every later flush of the bucket attempts nothing |
| RateLimits.ReleasingRecovers | src/util/ratelimits.ts:52-101 | with the lock released on an exception, a flush makes the same attempts, leaves its bucket unlocked after a throw, and the next flush attempts the first remaining item |
| RateLimits.RateLimiter.constructor | src/util/ratelimits.ts:23-45 | a new limiter has no records, queues, aliases or locks, and no global reset |
| RateLimits.RateLimiter.Limit | src/util/ratelimits.ts:34-40 | the new state, attempts, clock and thrown flag are those of a flush after the item was enqueued |
| RateLimits.RateLimiter.FlushQueue | src/util/ratelimits.ts:52-101 | the new state, attempts, clock and thrown flag are those of the specification `Flush` |
| RateLimits.RateLimiter.Drain | src/util/ratelimits.ts:61-98 | the loop, which an exception ends, achieves exactly `Run` |
| RateLimits.RateLimiter.Iterate | src/util/ratelimits.ts:62-97 | one iteration, returning early when the callback throws, achieves exactly `Step` |
| RateLimits.RateLimiter.WaitOut | src/util/ratelimits.ts:62-69 | the clock after the three waits is the departure time, and only the global reset changes, to 0 |
| RateLimits.RateLimiter.ApplyLimits | src/util/ratelimits.ts:86-97 | records, global reset and alias map become their refreshed values; queues and locks are untouched |
| Api.Classify | src/network/api.ts:40-46 | rate limited exactly on 429; remaining and reset always reported, 0 when absent, reset in milliseconds; a global reset at now + Retry-After exactly when the global header is non-empty; the group is the bucket header |
| Api.RequestHeaders | src/network/api.ts:33-38 | exactly the four headers, in order, with the bot credential and the fixed user agent |
| Api.QueryPairs | src/network/api.ts:29 | fails with the `TypeError` exactly when some query value is missing; otherwise one pair per query key, in key order, with the value's text; none without query data |
| Api.BuildRequest | src/network/api.ts:28-39 | fails, before any request, exactly when a query value is missing; otherwise the URL is the API base, the path, `?` and the serialised query; the verb is upper-cased; the fixed headers; a body exactly when body data is given, as its serialisation |
| Api.Finish | src/network/api.ts:48-49 | ok exactly for a 2xx status, returning the response; otherwise an error starting with `HTTP Error ` naming status, status text and URL |
| Api.MethodNamesRoundTrip | src/network/api.ts:32 | the verbs sent are GET, POST, PUT, PATCH and DELETE, and lower-casing one gives the caller's name back |
| Api.MethodsDistinct | src/network/api.ts:32 | distinct methods are sent as distinct verbs |
| Api.NoQueryUrl | src/network/api.ts:29 | without query data, the URL ends in the serialisation of no entries |
| Api.OmittedQueryArgumentFails | src/network/api.ts:29 | a query `{user_id, action_type}` with `user_id` left out makes the request fail with the `TypeError` |
| Api.GivenPairsMembers | src/network/api.ts:29 | the corrected pairs hold exactly the entries whose value is given, each with its value's text |
| Api.GivenPairsComplete | src/network/api.ts:29 | with no missing value, the corrected pairs are all the entries, in order, with their values' text |
| Api.GivenQueryPairsCorrect | src/network/api.ts:29 | the corrected query holds a pair exactly for each member that has a value, with that value's text; none without query data |
| Api.GivenQueryPairsAgree | src/network/api.ts:29 | wherever the code's query succeeds, the corrected query is the same |
| Api.ResolvedIffNot429 | src/network/api.ts:31-46 | with the API's classifier, the limiter resolves exactly the responses whose status is not 429, and never a request whose callback threw |
| Api.ClassifiedThrottleKeepsHeader | src/network/api.ts:42 | after a 429, the record holds the `X-RateLimit-Remaining` header, or 0 when it is absent |
| GatewayInterface.ControlSignalsInternal | src/network/gateway_interface.ts:10-25 | all four command signals are internal |
| GatewayInterface.UpdateStatus | src/network/gateway_interface.ts:10-12 | the status handlers are called with the status, and all are awaited |
| GatewayInterface.UpdateVoiceState | src/network/gateway_interface.ts:15-17 | the voice-state handlers are called with the state, and all are awaited |
| GatewayInterface.RequestGuildMembers | src/network/gateway_interface.ts:20-22 | the member-request handlers are called with the request, and all are awaited |
| GatewayInterface.Close | src/network/gateway_interface.ts:25 | the close handlers are called with no arguments, and all are awaited |
| GatewayInterface.Connect | src/network/gateway_interface.ts:65 | the handler is appended to the name's list, as the inherited `connect` does |
| Gateway.FromCode | src/network/gateway.ts:6-18 | a recognised number is the code of the opcode it names |
| Gateway.CodeRoundTrip | src/network/gateway.ts:6-18 | every opcode is recognised by its own number |
| Gateway.AssignedCodes | src/network/gateway.ts:6-18 | the opcodes number 0-4 and 6-11, and 5 is unassigned |
| Gateway.CodesDistinct | src/network/gateway.ts:6-18 | distinct opcodes have distinct numbers |
| Gateway.CombinedIntents | src/network/gateway.ts:38-39 | MESSAGES is bits 9 and 12, and MESSAGE_REACTIONS is bits 10 and 13 |
| Gateway.FrameFields | src/network/gateway.ts:74 | a sent frame reads back as its opcode number and payload |
| Gateway.InitialState | src/network/gateway.ts:70-72 | a fresh generation is acknowledged and has no timer; without resume information, `seq` is null and the session id is empty; otherwise both are carried over |
| Gateway.TickHeartbeat | src/network/gateway.ts:75-83 | a tick after an acknowledgement sends one heartbeat carrying `seq` and clears `acked`; otherwise it closes with 2000 and stops the timer; neither reconnects |
| Gateway.TicksNeverReopen | src/network/gateway.ts:75-83 | no number of ticks ever schedules a new generation |
| Gateway.ZombieConnection | src/network/gateway.ts:75-83 | two ticks without an acknowledgement: a heartbeat, then a close with 2000 and stopping the timer |
| Gateway.HelloIdentifiesOrResumes | src/network/gateway.ts:110-131 | HELLO starts the timer at the given interval and sends IDENTIFY exactly when there is no resume information, RESUME otherwise |
| Gateway.HelloReplyKind | src/network/gateway.ts:112-130 | the reply to HELLO is IDENTIFY with its payload without resume information, and RESUME with the session id and `seq` with it |
| Gateway.ResumeFields | src/network/gateway.ts:123-130 | RESUME carries the credential, the session id and `seq` |
| Gateway.IdentifyFields | src/network/gateway.ts:112-122 | IDENTIFY carries the credential, and the intents only when given |
| Gateway.IdentifyProperties | src/network/gateway.ts:116-120 | IDENTIFY's properties name the OS, and the library as browser and device |
| Gateway.HeartbeatEchoed | src/network/gateway.ts:133-135 | a server HEARTBEAT is answered with `seq` and changes nothing |
| Gateway.AckRecorded | src/network/gateway.ts:136-138 | HEARTBEAT_ACK sets `acked` and sends nothing |
| Gateway.DispatchRecordsAndEmits | src/network/gateway.ts:151-155 | READY records the session id; `seq` follows a truthy `s`, or keeps its value; the lower-cased event name is emitted with the payload |
| Gateway.ReadyWithoutPayloadFaults | src/network/gateway.ts:152 | READY with no payload throws: the loop stops and nothing is emitted |
| Gateway.ReconnectAndInvalidSession | src/network/gateway.ts:140-149 | RECONNECT stops any timer, closes with 1000 and resumes at once; INVALID_SESSION does the same after 5000 ms, resuming exactly when `d` is truthy |
| Gateway.ReconnectCarriesSession | src/network/gateway.ts:140-143 | the generation scheduled by RECONNECT starts with this one's `seq` and session id (or `''` when it was never set), acknowledged |
| Gateway.OtherFramesIgnored | src/network/gateway.ts:109-156 | a frame with another opcode, or with none, changes nothing and does nothing |
| Gateway.SocketEvents | src/network/gateway.ts:103-106 | pings and pongs are skipped; a close event stops the loop silently; the end of the stream is what emits `disconnect` |
| Gateway.StoppedLoopReadsNothing | src/network/gateway.ts:103-106 | once the loop has stopped, socket events have no effect |
| Gateway.DisconnectOnce | src/network/gateway.ts:159 | after the loop has stopped, nothing more is emitted |
| Gateway.DispatchNeverCommands | src/network/gateway.ts:154 | a lower-cased event name never equals one of the three command signals a generation registers (status, voice state, member requests) |
| Gateway.DispatchCanClose | src/network/gateway.ts:151-155 | a DISPATCH named `__GATEWAY_CLOSE` emits exactly the internal close signal with its payload |
| Gateway.RegistrationReplaces | src/network/gateway.ts:85-101 | registration leaves exactly one handler per command signal (opcodes 3, 4, 8), keeps every other entry, and a later generation's registration replaces an earlier one's |
| Gateway.CommandsReachGeneration | src/network/gateway.ts:85-101 | each command makes the registered generation send exactly one frame with that command's opcode and the argument as payload |
| Gateway.CloseUnhandled | src/network/gateway_interface.ts:25 | no generation handles `close()`: without a user handler, it invokes nothing |
| Gateway.Generation.constructor | src/network/gateway.ts:68-72 | the variables start as the initial session |
| Gateway.Generation.RegisterControls | src/network/gateway.ts:85-101 | the listener table becomes the registered table of this generation |
| Gateway.Generation.Beat | src/network/gateway.ts:75-83 | new variables and effects are those of `sendHeartbeat` |
| Gateway.Generation.Close | src/network/gateway.ts:141-142 | the effects are stopping any timer, then a close with 1000 |
| Gateway.Generation.OnDispatch | src/network/gateway.ts:151-155 | new variables and effects are those of the DISPATCH case |
| Gateway.Generation.OnFrame | src/network/gateway.ts:108-156 | new variables and effects are those of the switch on the frame's opcode |
| Gateway.Generation.Receive | src/network/gateway.ts:103-157 | new variables and effects are those of one input to the loop or of one timer tick |
| Gateway.Generation.Serve | src/network/gateway.ts:103-159 | after any input sequence, variables and effects are those of reacting to each input in order |
| GenEndpoints.ProcessValueSchema | gen/gen_endpoints.ts:22-37 | a bare type is optional exactly when all arguments are; for a described type a default wins over optionality, which wins over nullability; name and schema are kept |
| GenEndpoints.FnArgShape | gen/gen_endpoints.ts:22-37 | every declaration is `name: type` followed by one of exactly four suffixes |
| GenEndpoints.AllOptionalArgsOptional | gen/gen_endpoints.ts:53 | every query argument can be left out by the caller |
| GenEndpoints.ProcessAll | gen/gen_endpoints.ts:51-53 | one processed argument per schema entry, in entry order |
| GenEndpoints.Args | gen/gen_endpoints.ts:51-53 | an absent schema gives no arguments; a present one gives its entries processed |
| GenEndpoints.ArgNames | gen/gen_endpoints.ts:55-56 | the argument names in order, none when absent |
| GenEndpoints.ArgNamesAreKeys | gen/gen_endpoints.ts:51-56 | the argument names are the schema object's keys, in order; none when it is absent |
| GenEndpoints.FnArgs | gen/gen_endpoints.ts:58-60 | the declarations of the arguments, in order |
| GenEndpoints.JoinPrefixed | gen/gen_endpoints.ts:58-60 | a separator followed by the joined list puts a separator before every declaration |
| GenEndpoints.ArgList | gen/gen_endpoints.ts:58-60 | nothing for an absent list; one separator for an empty one; otherwise a separator before each declaration |
| GenEndpoints.NamesLiteral | gen/gen_endpoints.ts:68-69 | `undefined` for no names; otherwise the comma-joined names in braces |
| GenEndpoints.JoinSplitRoundTrip | gen/gen_endpoints.ts:68-69 | names without commas are recovered from their joined literal |
| GenEndpoints.PathTemplate | gen/gen_endpoints.ts:67 | a template never starts with a bare `{` |
| GenEndpoints.PathTemplateRoundTrip | gen/gen_endpoints.ts:67 | removing the inserted `$` gives the path back |
| GenEndpoints.PathTemplateLength | gen/gen_endpoints.ts:67 | the template is one character longer per `{` |
| GenEndpoints.PathTemplateSplit | gen/gen_endpoints.ts:67 | the template of a concatenation is the concatenation of the templates |
| GenEndpoints.TemplateLiteral | gen/gen_endpoints.ts:67 | the path template in backticks is a template literal that reads back as the path |
| GenEndpoints.Parameters | gen/gen_endpoints.ts:63-64 | the parameter list starts with `token: string` |
| GenEndpoints.ParametersInOrder | gen/gen_endpoints.ts:58-64 | after `token: string` come the declarations of the path, then the query, then the body arguments, each after the separator; an empty schema object contributes a bare separator |
| GenEndpoints.WrapperAsWritten | gen/gen_endpoints.ts:62-70 | the wrapper takes the generated parameters; its call passes five arguments: `token`, the quoted method, a template literal that reads back as the path, and the literals of the query and of the body argument names, in schema order |
| GenEndpoints.WrapperCorrected | gen/gen_endpoints.ts:62-70 | the corrected call passes six arguments: `token`, the quoted method, the path template both as path and as bucket, then the query and body literals; same parameters |
| GenEndpoints.AsWrittenShiftsArguments | gen/gen_endpoints.ts:66-70 | as written, the call has one argument fewer than `makeRequest` takes; the query literal lands on `bucket` and the body literal on `queryData` |
| GenEndpoints.AsWrittenExample | gen/gen_endpoints.ts:66-70 | with one query argument `user_id` and no body, the bucket passed is `{user_id}` and the query data is `undefined` |
| GenEndpoints.AddImport | gen/gen_endpoints.ts:42-43 | adding one import keeps the object well formed |
| GenEndpoints.GroupedSnoc | gen/gen_endpoints.ts:40-44 | grouping one more entry is adding that import to the grouping of the earlier ones |
| GenEndpoints.Grouped | gen/gen_endpoints.ts:40-44 | the grouped imports form a well-formed object |
| GenEndpoints.GroupedContents | gen/gen_endpoints.ts:40-44 | a module key exists exactly when some name is imported from it, and it lists exactly those names, in input order |
| GenEndpoints.GroupImports | gen/gen_endpoints.ts:40-44 | the loop builds exactly the grouped imports of the entries |

## Left out

- RateLimits.StepWaitsOutCooldowns: for the group record, it does not state the full "reset plus 2000 ms" bound. The group check runs after the bucket's own wait, so the margin is guaranteed only when the group's reset is later than the clock after that wait; otherwise the lemma states the weaker "no earlier than the group's reset".
- Concurrency: the model does not cover flushes of different buckets interleaving at their `await`s, or `limit` calls made while a flush sleeps. The limiter runs one flush at a time and receives submissions only between flushes. `RateLimiter.ApplyLimits` relies on this: no other flush can set the global reset during the callback.
- `console.log` of rate-limited buckets (line 80 of the limiter) and of close events (line 106 of the gateway) is output only, and is not modelled.
- Timers are not modelled as timers. `setTimeout` and `setInterval` become the clock value after a wait, or the effects `StartTimer`, `StopTimer` and `Reopen`. Ticks are inputs that may arrive at any time. The interval a second HELLO leaks (it is started without clearing the first) shows only as a second `StartTimer`.
- `Gateway.Config`: the intents are a 32-bit value, where the code takes any `number`; a value that is negative, fractional or wider than 32 bits is not modelled.
- Floating point: clocks and header values are integers. `Retry-After` and `X-RateLimit-Reset` are decimal seconds held as thousandths. Parsing a header that is not a number (NaN) is not modelled.
- `JSON.parse` of text that is not JSON, and the exception it would throw: frames arrive already parsed.
- A DISPATCH whose `t` is missing: the code first calls the handlers registered under the name `undefined`, then throws in `emit`. The model records only the throw (a `Fault` that stops the loop).
- Unicode case mapping: `toLowerCase` and `toUpperCase` are modelled on ASCII letters only.
- `Object.keys` order: integer-like keys come first in JavaScript. The model takes key order as given and does not reorder them. Inherited keys are not modelled, in objects or in the listener table of `Signals.Signaler`: there `emit('constructor')` throws, because the prototype's `constructor` has no `map`, while the model treats the name as unregistered.
- `openGateway` itself: fetching the gateway URL, opening the websocket, and `Deno.build.os` are I/O. The OS name is a field of `Gateway.Config`. Scheduling each next generation is the `Reopen` effect; no chain of generations is modelled.
- User handlers of the broadcaster are opaque values. Only the command handlers a generation registers are given a meaning (`Gateway.Sends`).
- The generator's I/O is not modelled: reading `endpoints.json` and printing the imports and wrappers. Neither is the final text layout (`trim`, indentation removal). The enum section of the definitions file is not used by the generator.
- `src/generated/endpoints.ts` and the two hand-written wrappers in `src/network/api.ts` (lines 68-93) are call sites of `makeRequest` and are not part of this model. The checked-in wrappers were not produced by the generator as it stands: they take a `requestFunc` parameter, and many pass as bucket a path template with only the major parameters interpolated. `GenEndpoints.WrapperCorrected` models neither; its bucket is the full path template.
- Exceptions other than a throwing callback: a `limitBy` that throws, and the rejected promise of `flushQueue`, which `limit` does not observe, are not modelled. `Api.BuildRequest` returns the `TypeError` as an error value instead of throwing it.
- The `makeRequest` binding (line 63 of the HTTP layer) to one shared limiter is not modelled as a binding. `Api.BuildRequest` and `Api.Classify` are the parts of a request that the limiter does not own.

## Findings

| source | as written | input that shows it | evidently intended | confidence | as-written member | corrected member |
|---|---|---|---|---|---|---|
| gen/gen_endpoints.ts:66-70 | the generated call passes `token, method, path, query, body` to `makeRequest`, whose parameters after the bound limiter are `token, method, path, bucket, queryData, bodyData` (src/network/api.ts:19-27) | an endpoint with query argument `user_id` and no body: the query literal `{user_id}` is passed as the bucket key and `undefined` as the query data, so no query string is sent | pass the path template a second time as the bucket key, as the hand-written wrappers at src/network/api.ts:74-78 and 88-92 do | not executed | GenEndpoints.AsWrittenShiftsArguments | GenEndpoints.WrapperCorrected |
| src/util/ratelimits.ts:71-100 | when `await queued?.callback()` throws, the item has already been shifted out, the loop ends, and `delete this.queueLock[bucket]` never runs | a `fetch` that rejects on a network error for the first of two queued requests: the first promise never settles, and the second request and every later one in that bucket are never attempted | release the lock in a `finally` (and settle the item), so an exception fails only its own request | not executed | RateLimits.ThrowStrandsQueue | RateLimits.ReleasingRecovers |
| src/network/api.ts:29 | every query value is converted with `v.toString()`, and the generated wrappers pass an omitted optional query argument as `undefined` | `getGuildAuditLog` called without `user_id`: the query `{user_id, action_type}` holds `undefined`, and a `TypeError` is thrown before the request is queued | leave out the members whose value is missing | not executed | Api.OmittedQueryArgumentFails | Api.GivenQueryPairsCorrect |
