# Simple-SNS alarm notification path, modelled in Dafny

This project models the alarm notification path of the Simple-SNS backend, together with the small pure helpers around it.

- **Connection registry** (`Emitters`). `EmitterRepository` is a class over a `map<string, Handle>` keyed by `"emitter:UID:" + userId`. A handle is an opaque id standing for an `SseEmitter`.
- **Alarm dispatch** (`Alarms`). The dispatch state is a value, `Dispatch`. It holds the user-id store, the append-only alarm store, the registry's map, every handle created with its timeout and callbacks, and a trace of side effects (`Stored`, `Pushed`) in the order they happen. `SendStep`, `ConnectStep`, `CompleteStep` and `TimeoutStep` are the entry points as state-to-state functions. The `AlarmService` class performs the source's ordered side effects, and each of its methods is proved equal to the matching step function. How a push ends is an argument, `PushOutcome`, with three values: the event is written, the push fails with an `IOException`, or it throws an unchecked exception such as `IllegalStateException`.
- **Consumer** (`AlarmConsumers`). `ConsumeNotification` calls `send` with the event's fields and then appends the event to an acknowledgement log. `ConsumeStep` is its step function.
- **User service** (`UserServices`). It models `loadUserByUserName` over a user cache and a user table, both keyed by name. `login` and `join` are methods of a `UserService` class. `alarmList` is a filter on the alarm store. Password matching, password encoding and token generation are function-valued fields.
- **Token filter** (`JwtFilter`). Token extraction follows Java `String.split` and `String.trim` semantics (`JavaStrings`). The authenticate-or-skip decision is the function `Authenticate`. `DoFilterInternal` is a method over a security context and a filter chain. How each call down the chain ends is an argument. The method is proved to invoke the chain once, or twice when a call made inside the `try` throws an unchecked exception and the `catch` passes the request on again.
- **Static resources** (`WebConfig`). Covers `resolve` and `resolveUrlPath`.
- **Errors and users** (`Errors`, `Users`). Covers the exception's constructors and `getLocalizedMessage`, plus `User.fromEntity`, `getAuthorities` and the account flags.

Behaviours of the code worth knowing, all modelled as written:

- An event whose receiver is unknown makes `send` throw `USER_NOT_FOUND` before `ack.acknowledge()`, so that event is **not** acknowledged.
- An `IOException` from the handshake in `connectNotification` becomes `NOTIFICATION_CONNECT_ERROR`, and an unchecked exception leaves as itself. Either way, the registration saved just before it **stays**.
- `send` catches only `IOException`. An unchecked exception from the push leaves `send` after the alarm is stored, and the registry is left as it was. The consumer then skips the acknowledgement (`UncheckedPushNotAcknowledged`).
- The completion and timeout callbacks delete by user id. So when a superseded handle completes, it evicts the user's newer registration (`SupersededCompletionEvictsReplacement`).
- The new-alarm push carries the alarm id as the event id. Its data is an `AlarmNoti` object. AlarmNoti.java is not part of this model, so the object's content is not modelled.
- Acknowledgement is gated on `send` returning normally.
- The registry is a plain `HashMap`, so it is modelled sequentially.

`resolve` tests `staticExtension.contains(requestPath)`, which compares the whole path against the six words. So `"logo.png"` gets the entry page, and only the "static" prefix serves real files (`WholePathIsCompared`). The model keeps this behaviour as written.

## Model

| member | source | states |
|---|---|---|
| JavaStrings.IntToStringRoundTrip | src/main/java/com/simplesns/repository/EmitterRepository.java:54 | The decimal form of an Integer, as string concatenation produces it, reads back as the same integer. |
| JavaStrings.IntToStringInjective | src/main/java/com/simplesns/service/AlarmService.java:53 | Distinct ids have distinct decimal strings. This holds for push ids and registry keys alike. |
| JavaStrings.IntToString | src/main/java/com/simplesns/repository/EmitterRepository.java:54 | Java's decimal form of an Integer: at least one character, with a leading '-' exactly for negatives. Its round trip is `IntToStringRoundTrip`. |
| JavaStrings.SplitAll | src/main/java/com/simplesns/configuration/filter/JwtTokenFilter.java:48 | The pieces between separators contain no separator, and joining them with it gives back the input. |
| JavaStrings.DropTrailingEmpty | src/main/java/com/simplesns/configuration/filter/JwtTokenFilter.java:48 | The result is a prefix that does not end in an empty string, and only empty strings were dropped. |
| JavaStrings.Split | src/main/java/com/simplesns/configuration/filter/JwtTokenFilter.java:48 | `split` gives `[s]` when the separator is absent. Otherwise it gives the pieces minus trailing empty ones. |
| JavaStrings.SplitPair | src/main/java/com/simplesns/configuration/filter/JwtTokenFilter.java:48 | `k=v`, with no separator in `k` or `v` and `v` non-empty, splits to exactly `[k, v]`. |
| JavaStrings.SplitTrailingSeparator | src/main/java/com/simplesns/configuration/filter/JwtTokenFilter.java:56 | For `k` non-empty and without the separator, `k` plus a trailing separator splits to `[k]`, so there is no element at index 1. |
| JavaStrings.TrimStart | src/main/java/com/simplesns/configuration/filter/JwtTokenFilter.java:56 | The result is a suffix of the input. Every dropped character is at most U+0020, and the result does not start with one. |
| JavaStrings.TrimEnd | src/main/java/com/simplesns/configuration/filter/JwtTokenFilter.java:56 | The result is a prefix of the input. Every dropped character is at most U+0020, and the result does not end with one. |
| JavaStrings.Trim | src/main/java/com/simplesns/configuration/filter/JwtTokenFilter.java:48 | The result is the slice of the input left after removing every character at most U+0020 from both ends. It is empty, or it starts and ends with a character above U+0020. |
| JavaStrings.TrimPlain | src/main/java/com/simplesns/configuration/filter/JwtTokenFilter.java:56 | A string without blanks or control characters is left unchanged by trim. |
| Emitters.KeyInjective | src/main/java/com/simplesns/repository/EmitterRepository.java:53-55 | `getKey` is injective: equal keys mean equal user ids. |
| Emitters.Key | src/main/java/com/simplesns/repository/EmitterRepository.java:53-55 | `getKey`, defined by its body. See `KeyInjective`. |
| Emitters.EmitterRepository.constructor | src/main/java/com/simplesns/repository/EmitterRepository.java:22 | The registry starts empty. |
| Emitters.EmitterRepository.Save | src/main/java/com/simplesns/repository/EmitterRepository.java:27-31 | The map afterwards is the old map with the user's key set to the handle. The same handle is returned. |
| Emitters.EmitterRepository.Delete | src/main/java/com/simplesns/repository/EmitterRepository.java:37-39 | The map afterwards is the old map without the user's key. |
| Emitters.EmitterRepository.Get | src/main/java/com/simplesns/repository/EmitterRepository.java:44-47 | Present exactly when the user's key is in the map, and then it is the stored handle. |
| Emitters.LookupAfterPut | src/main/java/com/simplesns/repository/EmitterRepository.java:27-31 | After `save(u, e)`, `get(u)` is exactly `e`. |
| Emitters.PutReplaces | src/main/java/com/simplesns/repository/EmitterRepository.java:30 | A second save for the same user replaces the first. |
| Emitters.LookupAfterRemove | src/main/java/com/simplesns/repository/EmitterRepository.java:37-39 | After `delete(u)`, `get(u)` is empty. |
| Emitters.RemoveIdempotent | src/main/java/com/simplesns/repository/EmitterRepository.java:38 | Deleting an absent user changes nothing, and deleting twice is the same as deleting once. |
| Emitters.OtherUsersUntouched | src/main/java/com/simplesns/repository/EmitterRepository.java:53-55 | A save or delete for `u` leaves every other user's entry unchanged. |
| Emitters.ApplyAllSnoc | src/main/java/com/simplesns/repository/EmitterRepository.java:27-39 | Applying a sequence of operations and then one more is the same as applying the extended sequence. |
| Emitters.GetReturnsLatestWrite | src/main/java/com/simplesns/repository/EmitterRepository.java:27-47 | After any sequence of saves and deletes, `get(u)` is the last save's handle for `u`. It is empty when the last operation on `u` was a delete. |
| Alarms.WithUsers | src/main/java/com/simplesns/service/AlarmService.java:34-36 | A state with users and nothing else is well formed. |
| Alarms.SendStep | src/main/java/com/simplesns/service/AlarmService.java:41-60 | `send` as a state step, defined by its body. It has three push outcomes: delivered, `IOException` (caught at line 56) and unchecked (not caught). See `SendUnknownReceiver`, `SendStoresOneAlarm`, `SendPushesToRegistered` and `SendWithoutHandle`. |
| Alarms.ConnectStep | src/main/java/com/simplesns/service/AlarmService.java:65-87 | `connectNotification` as a state step, defined by its body. An `IOException` from the handshake is turned into `NOTIFICATION_CONNECT_ERROR` at line 82, and an unchecked exception passes through. See `ConnectRegisters`. |
| Alarms.CompleteStep | src/main/java/com/simplesns/service/AlarmService.java:71 | The completion callback as a state step, defined by its body. See `CallbacksDeleteOwner`. |
| Alarms.TimeoutStep | src/main/java/com/simplesns/service/AlarmService.java:73 | The timeout callback as a state step, defined by its body. See `CallbacksDeleteOwner`. |
| Alarms.SendUnknownReceiver | src/main/java/com/simplesns/service/AlarmService.java:43 | An unknown receiver gives `USER_NOT_FOUND`. The state, including the alarm store, registry and trace, is unchanged. |
| Alarms.SendStoresOneAlarm | src/main/java/com/simplesns/service/AlarmService.java:46-47 | A known receiver gets exactly one appended alarm, with a fresh id and the given type, args and receiver. The call succeeds, unless the push to a registered handle throws an unchecked exception; that exception then leaves `send` after the store. |
| Alarms.SendPushesToRegistered | src/main/java/com/simplesns/service/AlarmService.java:47-58 | After the store, exactly one push goes to the registered handle, with the new id in decimal and name "alarm". If it fails with an `IOException`, only the receiver's entry is removed and the call succeeds. If it throws an unchecked exception, the call fails with it and the registry is unchanged. |
| Alarms.SendWithoutHandle | src/main/java/com/simplesns/service/AlarmService.java:50-59 | With no handle, the alarm is stored and nothing is pushed. The registry is unchanged and there is no error. |
| Alarms.ConnectRegisters | src/main/java/com/simplesns/service/AlarmService.java:67-84 | The registry afterwards is the old one with `u` mapped to a fresh handle, so other users' entries are unchanged. The handle has a 3,600,000 ms timeout, and both callbacks delete `u`. The handshake is ("id", "alarm", "connect completed"). A handshake `IOException` gives `NOTIFICATION_CONNECT_ERROR`, and an unchecked exception leaves as itself. The registration stays either way. |
| Alarms.CallbacksDeleteOwner | src/main/java/com/simplesns/service/AlarmService.java:71-73 | A handle created for `u` deletes `u`'s entry on completion or timeout. This holds in any later state that still holds the handle as created, whatever handle is registered by then. |
| Alarms.SendKeepsEmitters | src/main/java/com/simplesns/service/AlarmService.java:41-60 | `send` keeps every created handle, with its timeout and callbacks. |
| Alarms.ConnectKeepsEmitters | src/main/java/com/simplesns/service/AlarmService.java:67-73 | A connect keeps every created handle, and adds exactly the fresh one. |
| Alarms.CallbacksKeepEmitters | src/main/java/com/simplesns/service/AlarmService.java:71-73 | Running a callback keeps every created handle. |
| Alarms.KeepsEmittersTransitive | src/main/java/com/simplesns/service/AlarmService.java:65-87 | Keeping the created handles composes across steps. |
| Alarms.CallbacksOutliveOtherConnects | src/main/java/com/simplesns/service/AlarmService.java:68-73 | After `u` connects and then any user connects, `u`'s first handle still deletes `u`'s entry on completion or timeout. |
| Alarms.SupersededCompletionEvictsReplacement | src/main/java/com/simplesns/service/AlarmService.java:68-73 | After two connects for `u`, the second handle is registered. When the first handle completes, `u` has no entry. |
| Alarms.SendPreservesValid | src/main/java/com/simplesns/service/AlarmService.java:41-60 | `send` keeps alarm ids sequential and every registered handle a created one. |
| Alarms.ConnectPreservesValid | src/main/java/com/simplesns/service/AlarmService.java:65-87 | `connectNotification` keeps the dispatch state well formed. |
| Alarms.CallbacksPreserveValid | src/main/java/com/simplesns/service/AlarmService.java:71-73 | Running either callback keeps the dispatch state well formed. |
| Alarms.AlarmService.constructor | src/main/java/com/simplesns/service/AlarmService.java:34-36 | The service starts with the given users, an empty store, a fresh empty registry and no handles. |
| Alarms.AlarmService.Send | src/main/java/com/simplesns/service/AlarmService.java:41-60 | The new state and outcome are those of `SendStep`, reached by the source's sequence: find the user, save, get, push, delete. |
| Alarms.AlarmService.ConnectNotification | src/main/java/com/simplesns/service/AlarmService.java:65-87 | The new state and result are those of `ConnectStep`, reached by the source's sequence: create, save, set callbacks, handshake. |
| Alarms.AlarmService.Complete | src/main/java/com/simplesns/service/AlarmService.java:71 | Running the completion callback brings the state to `CompleteStep`. |
| Alarms.AlarmService.Timeout | src/main/java/com/simplesns/service/AlarmService.java:73 | Running the timeout callback brings the state to `TimeoutStep`. |
| AlarmConsumers.ConsumeDelegatesToSend | src/main/java/com/simplesns/kafka/AlarmConsumer.java:29 | Consuming changes the dispatch state exactly as `send` does with the event's type, args and receiverUserId. |
| AlarmConsumers.ConsumeStep | src/main/java/com/simplesns/kafka/AlarmConsumer.java:26-33 | `consumeNotification` as a step over state and acknowledgement log, defined by its body. See the three lemmas around it. |
| AlarmConsumers.AckExactlyOnSuccess | src/main/java/com/simplesns/kafka/AlarmConsumer.java:29-32 | When `send` returns normally there is exactly one acknowledgement, of this event. When it throws there is none. |
| AlarmConsumers.UnknownReceiverNotAcknowledged | src/main/java/com/simplesns/kafka/AlarmConsumer.java:26-33 | For an unknown receiver, the event fails with `USER_NOT_FOUND`, is not acknowledged, and leaves all state unchanged. |
| AlarmConsumers.KnownReceiverAcknowledged | src/main/java/com/simplesns/kafka/AlarmConsumer.java:29-32 | For a known receiver, the event is stored with its own fields. It is acknowledged once unless the push to a registered handle throws an unchecked exception; then `send` fails with it, and there is no acknowledgement. |
| AlarmConsumers.UncheckedPushNotAcknowledged | src/main/java/com/simplesns/kafka/AlarmConsumer.java:29-32 | When the push to a registered receiver throws an unchecked exception, the alarm is stored but the event is not acknowledged, and the registration stays. |
| AlarmConsumers.AlarmConsumer.constructor | src/main/java/com/simplesns/kafka/AlarmConsumer.java:20 | The consumer is bound to the service and has acknowledged nothing. |
| AlarmConsumers.AlarmConsumer.ConsumeNotification | src/main/java/com/simplesns/kafka/AlarmConsumer.java:26-33 | Calling `send` and then acknowledging only on normal return gives the state, log and outcome of `ConsumeStep`. |
| UserServices.LoadPrefersCache | src/main/java/com/simplesns/service/UserService.java:41 | A cache hit is the answer whatever the table holds, so the table is not consulted. |
| UserServices.LoadUserByUserName | src/main/java/com/simplesns/service/UserService.java:40-45 | Fails exactly when the name is in neither the cache nor the table, and then with `USER_NOT_FOUND`. See `LoadPrefersCache` and `LoadFallsBackToTable`. |
| UserServices.LoadFallsBackToTable | src/main/java/com/simplesns/service/UserService.java:42-43 | On a cache miss, the result is the table row via `fromEntity`. If both miss, it is `USER_NOT_FOUND` with detail "userName is <name>". |
| UserServices.LoadedUserHasName | src/main/java/com/simplesns/service/UserService.java:40-45 | With both stores keyed by name, a loaded user has the requested name. |
| UserServices.AlarmList | src/main/java/com/simplesns/service/UserService.java:89-91 | The list holds exactly the stored alarms whose owner is the user. |
| UserServices.AlarmListAppend | src/main/java/com/simplesns/service/UserService.java:89-91 | Listing a concatenated store gives the concatenation of the two lists. |
| UserServices.AlarmListAfterSend | src/main/java/com/simplesns/service/UserService.java:89-91 | After `send` stores an alarm, the receiver's list gains exactly that alarm at its end. Other users' lists are unchanged. |
| UserServices.UserService.constructor | src/main/java/com/simplesns/service/UserService.java:25-28 | The service starts with empty stores and the given password and token functions. |
| UserServices.UserService.Login | src/main/java/com/simplesns/service/UserService.java:51-65 | A load failure is passed on and the cache is untouched. Otherwise the loaded user is cached under its name before the password check. A wrong password gives `INVALID_PASSWORD` with the cache already written. A right one gives the token for the name. |
| UserServices.UserService.Join | src/main/java/com/simplesns/service/UserService.java:72-83 | A taken name gives `DUPLICATED_USER_NAME` and saves nothing. A new name saves exactly one row, which has a fresh id and the encoded password and is returned via `fromEntity`. |
| JwtFilter.NoBearerExactly | src/main/java/com/simplesns/configuration/filter/JwtTokenFilter.java:50-53 | The request is passed on without a token exactly for another URI whose header is missing or does not start with "Bearer ". |
| JwtFilter.ExtractToken | src/main/java/com/simplesns/configuration/filter/JwtTokenFilter.java:46-57 | The token-reading part of the `try`, defined by its body. See `NoBearerExactly`, `QueryTokenExtracted` and `BearerTokenExtracted`. |
| JwtFilter.QueryTokenExtracted | src/main/java/com/simplesns/configuration/filter/JwtTokenFilter.java:46-48 | On the subscribe URI, a missing query string is a failure. `name=value`, with no '=' in `name` or `value` and `value` non-empty, yields the trimmed value. |
| JwtFilter.BearerTokenExtracted | src/main/java/com/simplesns/configuration/filter/JwtTokenFilter.java:56 | `"Bearer " + t`, with `t` non-empty and without a space, yields `t` trimmed. A bare `"Bearer "` has no index 1 and is a failure. |
| JwtFilter.AuthenticatedExactly | src/main/java/com/simplesns/configuration/filter/JwtTokenFilter.java:60-78 | Authentication is stored if and only if three things hold: a token was found, the user it names loads, and the token validates for that user's name. What is stored is that user with its authorities. |
| JwtFilter.Authenticate | src/main/java/com/simplesns/configuration/filter/JwtTokenFilter.java:44-78 | The authentication the filter stores, defined by its body. See `AuthenticatedExactly` and `FailuresStoreNothing`. |
| JwtFilter.FailuresStoreNothing | src/main/java/com/simplesns/configuration/filter/JwtTokenFilter.java:79-82 | No token, a broken request, an unreadable token or an unknown user stores nothing. |
| JwtFilter.InsideTryStoresNothing | src/main/java/com/simplesns/configuration/filter/JwtTokenFilter.java:50-69 | The two chain calls inside the `try`, for a missing bearer header and for a failed validation, are on paths that store no authentication. |
| JwtFilter.SecurityContext.constructor | src/main/java/com/simplesns/configuration/filter/JwtTokenFilter.java:78 | A fresh security context holds no authentication. |
| JwtFilter.FilterChain.constructor | src/main/java/com/simplesns/configuration/filter/JwtTokenFilter.java:86 | A fresh chain has not been invoked. |
| JwtFilter.FilterChain.DoFilter | src/main/java/com/simplesns/configuration/filter/JwtTokenFilter.java:86 | Each call is one invocation of the chain. |
| JwtFilter.PassOn | src/main/java/com/simplesns/configuration/filter/JwtTokenFilter.java:79-82 | One pass down the chain. If a call made inside the `try` throws an unchecked exception, the `catch` calls the chain again, for two invocations. Otherwise there is one. The result tells whether an exception leaves the filter. |
| JwtFilter.DoFilterInternal | src/main/java/com/simplesns/configuration/filter/JwtTokenFilter.java:39-87 | The chain is invoked at least once on every path. It is invoked exactly once unless the call at line 52 or 67 throws an unchecked exception; then the `catch` makes a second call. An exception leaves the filter exactly when the last call made throws, or when the call inside the `try` throws a checked exception. The context gets `Authenticate`'s result when there is one, and is otherwise left as it was. |
| WebConfig.Resolve | src/main/java/com/simplesns/configuration/WebConfiguration.java:84-97 | `resolve` returns null exactly for a null path, so it never returns null for a non-null one. |
| WebConfig.ResolveClassifies | src/main/java/com/simplesns/configuration/WebConfiguration.java:92-96 | One of png, jpg, io, json, js, html, or a path starting with "static", resolves to "/static/" + path. Every other non-null path resolves to "/static/index.html". |
| WebConfig.ResolveStaysUnderStatic | src/main/java/com/simplesns/configuration/WebConfiguration.java:92-96 | Every resolved resource path, taken as written before Spring cleans it, starts with "/static/". What follows the prefix is either the request path or the entry page. |
| WebConfig.WholePathIsCompared | src/main/java/com/simplesns/configuration/WebConfiguration.java:51 | The list is matched against the whole path, so "logo.png" gets the entry page while "png" and "static/logo.png" are served. |
| WebConfig.ResolveUrlPath | src/main/java/com/simplesns/configuration/WebConfiguration.java:66-79 | Null exactly when `resolve` is null. Otherwise it is the location of the resolved resource. |
| Errors.OfCode | src/main/java/com/simplesns/exception/SimpleSnsApplicationException.java:13-16 | The one-argument constructor keeps the code and leaves the message null. |
| Errors.OfCodeAndMessage | src/main/java/com/simplesns/exception/SimpleSnsApplicationException.java:7 | The all-arguments constructor keeps both fields. |
| Errors.LocalizedMessage | src/main/java/com/simplesns/exception/SimpleSnsApplicationException.java:19-25 | The result always starts with the code's message, and equals it exactly when the detail is null. With a detail, it is three characters longer than the message and the detail together. |
| Errors.LocalizedMessageRoundTrip | src/main/java/com/simplesns/exception/SimpleSnsApplicationException.java:23 | With a detail, the code's message is followed by " (", then the detail, then a closing ")". A parser that checks both delimiters reads the detail back, and reads null back when there is none. |
| Errors.LocalizedMessageInjective | src/main/java/com/simplesns/exception/SimpleSnsApplicationException.java:19-25 | For the same code, two localized messages are equal exactly when the exceptions are equal. |
| Users.FromEntityRoundTrip | src/main/java/com/simplesns/model/User.java:33-43 | `fromEntity` copies id, name, password, role and the three timestamps unchanged, so copying back gives the row. |
| Users.FromEntity | src/main/java/com/simplesns/model/User.java:33-43 | `fromEntity`, defined by its body. See `FromEntityRoundTrip`. |
| Users.GetAuthorities | src/main/java/com/simplesns/model/User.java:47-49 | Exactly one authority, equal to the role's string form. |
| Users.AccountFlagsAgree | src/main/java/com/simplesns/model/User.java:53-73 | `isEnabled` holds exactly when `removedAt` is null, and the four account flags always agree. |
| Users.IsAccountNonExpired | src/main/java/com/simplesns/model/User.java:53-55 | Defined by its body. See `AccountFlagsAgree`. |
| Users.IsAccountNonLocked | src/main/java/com/simplesns/model/User.java:59-61 | Defined by its body. See `AccountFlagsAgree`. |
| Users.IsCredentialsNonExpired | src/main/java/com/simplesns/model/User.java:65-67 | Defined by its body. See `AccountFlagsAgree`. |
| Users.IsEnabled | src/main/java/com/simplesns/model/User.java:71-73 | Defined by its body. See `AccountFlagsAgree`. |

## Left out

- Concurrency: the registry is a plain `HashMap` and is modelled as sequential state.
- SSE transport: how each push ends is given as an argument. Callbacks are explicit `Complete` and `Timeout` steps. What Spring does to an emitter after a failed write is not modelled, and neither is Spring firing the completion callback after a timeout.
- Kafka: the producer, its configuration, broker delivery, ordering per key and redelivery are not modelled. The consumer model covers one delivery at a time.
- The Redis user cache and its three-day TTL are replaced by a map.
- JPA: the repositories and `Alarm.fromEntity` are modelled as maps, a sequence and the stored record itself.
- `JwtTokenUtils` (signing, parsing and the clock) is given to the filter as two functions, `userNameOf` and `validate`. In both, `None` stands for the exception they throw. Token generation is a function field of `UserService`.
- BCrypt is the `matches` and `encode` function fields.
- Controllers, DTOs, `GlobalControllerAdvice`, `CustomAuthenticationEntryPoint`, `ClassUtils`, `addResourceHandlers` and `resolveResource` are not modelled. `resolveResource` only calls `resolve`.
- The authentication's request details (`WebAuthenticationDetails`) and all logging are not modelled.
- ErrorCode.java, UserRole.java, UserEntity.java, AlarmType.java, AlarmArgs.java and AlarmNoti.java are not part of this model. Error-code message texts are a parameter. A role is carried by its name. `AlarmType` has two kinds. `NewLikeOnPost` is the one the code shows; `NewCommentOnPost` is assumed. A joined row gets the service's default role, `registeredAt` set to the given time, and null `updatedAt` and `removedAt`.
- Integer ids are unbounded and never null. A null id (`"emitter:UID:null"`) and 32-bit overflow are not modelled. Key injectivity holds for every integer.
- UserServices.AlarmList: returns the whole filtered store in store order. The `Pageable` window and sort are not modelled.
- WebConfig.ResolveStaysUnderStatic: the resource path is the raw concatenation. Spring's `ClassPathResource` cleans the path, collapsing `..` segments and dropping the leading '/', and that is not modelled. So for a request such as "static/../../application.yml" the source's resource lies outside `static/`, while the model's path still starts with "/static/".
- WebConfig.ResolveUrlPath: `getURL().toString()`, with its fallback to `getFilename()`, is one given function `locate`. Null propagation is all that is stated about it.
