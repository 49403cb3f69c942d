# noteo notification delivery, modelled in Dafny

noteo is a Telegram notification service. A publisher creates a *project*
and gets a bearer token for it; Telegram users *subscribe* to projects; a
`POST` to the notify endpoint with the project's token fans the event body
out as one message per subscriber that is not paused; the messages wait in a
bounded in-memory *queue* whose single consumer delivers each one through a
retry loop with doubling, capped back-off, and exits the process when a
message cannot be delivered.

This project models that delivery core, and the validators and stores around
it, one module per Go file:

| module | file | models |
|---|---|---|
| `Base` | base.dfy | optional values, results, the int64 range, time in nanoseconds, repository errors |
| `GoStrings` | gostrings.dfy | the parts of Go's `strings` and `strconv` the core calls (`TrimSpace`, `ToLower`/`ToUpper`, `TrimPrefix`, `ParseInt(s, 0, 64)`, decimal formatting) |
| `TelegramUserIds` | telegram_user_id.dfy | internal/domain/telegram_user_id.go |
| `Messages` | message.dfy | internal/domain/message.go |
| `Queue` | queue.dfy | internal/app/queue/queue.go and queue/config.go |
| `Api` | api.dfy | `handleNotify` in internal/app/api/service.go |
| `Subscriptions` | subscription.dfy | internal/domain/subscription.go over the repository of internal/app/db/subscription.go |
| `Projects` | project.dfy | internal/domain/project.go over the repository of internal/app/db/project.go |
| `AppConfig` | config.dfy | `LoadConfig` and `NewQueueConfig` in internal/app/config.go |
| `Logging` | log.dfy | internal/app/log.go |
| `BotState` | state_manager.dfy | internal/app/bot/state_manager.go |

The queue, the subscription and project services and the dialog-state store
change state in place in Go, so they are Dafny classes whose methods are
specified by their new state. The sender, the stop signal, the repositories'
failures, the current time and fresh UUIDs are inputs:

- The sender is an oracle `sendOk(attempt)`. The stop signal is an oracle
  `stop(wait)`, which `Stop` turns on for every later wait.
- Each repository call takes a flag saying whether the database fails.
- `now` is a parameter.
- Fresh IDs and tokens are parameters that are not yet in use.

`sendWithRetry` is a loop in Go and a method here. It also returns a ghost
trace of its `Send`, `Waited` and `Interrupted` events. The method is proved
equal to a closed form, `RetryOutcome`, and the retry properties are lemmas
about that closed form.

## Model

| member | source | states |
|---|---|---|
| `Queue.Queue.constructor` | internal/app/queue/queue.go:34-41 | a new queue has an empty buffer of the configured capacity, is not started and not stopped |
| `Queue.Queue.Put` | internal/app/queue/queue.go:45-52 | with fewer than `Capacity` buffered messages the message is appended at the back and nil is returned; otherwise `ErrQueueFull` and nothing changes |
| `Queue.Queue.Start` | internal/app/queue/queue.go:55-64 | with a sender the consumer starts running; the buffer is untouched (a nil sender panics, so it is excluded) |
| `Queue.Queue.ConsumeNext` | internal/app/queue/queue.go:65-72 | the consumer takes the front message, runs the whole retry loop on it, and enters the terminal exit state on any error |
| `Queue.Queue.Stop` | internal/app/queue/queue.go:115-120 | after `Stop`, the consumer delivers what is still buffered, in order, until it runs dry (finished, buffer empty) or exits after taking at least one message; what was consumed and its results only grow, and consumed plus buffered is unchanged; a queue never started keeps its buffer and its results |
| `Queue.ConsumedInArrivalOrder` | internal/app/queue/queue.go:65-72 | the consumer hands messages to the sender in the order `Put` accepted them |
| `Queue.CapacityOneScenario` | internal/app/queue/queue.go:45-52 | with capacity 1, of two `Put`s the first is accepted and the second reports a full queue |
| `Queue.SendWithRetry` | internal/app/queue/queue.go:77-112 | the retry loop's result and event trace are exactly `RetryOutcome` of the configuration and the two oracles |
| `Queue.NextDelay` | internal/app/queue/queue.go:105-108 | the next delay is twice the current one, or the cap when that is smaller |
| `Queue.NextDelayInt64` | internal/app/queue/queue.go:105-108 | the 64-bit update never exceeds the cap, and is either the cap or twice the delay modulo 2^64 |
| `Queue.DelayAtClosedForm` | internal/app/queue/queue.go:79-108 | with first delay ≤ cap, wait i (0-based) lasts min(d0·2^i, cap) |
| `Queue.DelayAtBounded` | internal/app/queue/queue.go:79-108 | with first delay ≤ cap, no wait exceeds the cap |
| `Queue.FirstDecisive` | internal/app/queue/queue.go:81-102 | the first attempt that succeeds or whose wait is interrupted, or the attempt limit; every attempt before it failed and waited in full |
| `Queue.FailedAttempts` | internal/app/queue/queue.go:81-108 | n failed attempts produce 2n events |
| `Queue.FailedAttemptsAt` | internal/app/queue/queue.go:81-108 | in the trace of n failed attempts, event 2i is send i and event 2i+1 is the full wait of the i-th delay |
| `Queue.RetryOutcome` | internal/app/queue/queue.go:77-112 | the last error is that of attempt `MaxRetries`−1 after 2·`MaxRetries` events; a stop ends on an interrupted wait; nil after an attempt ends on a send; there are no events exactly when `MaxRetries` ≤ 0 |
| `Queue.FailedAttemptsCounts` | internal/app/queue/queue.go:81-108 | n failed attempts make n sender calls and n waits |
| `Queue.SendsAtMostMaxRetries` | internal/app/queue/queue.go:81 | the sender is called at most `MaxRetries` times, and never when `MaxRetries` ≤ 0 |
| `Queue.SuccessEndsRetry` | internal/app/queue/queue.go:83-86 | nil comes right after the first successful call; every earlier attempt failed and waited in full, and no call follows |
| `Queue.NoAttemptsWhenNoRetries` | internal/app/queue/queue.go:78-111 | with `MaxRetries` ≤ 0 the sender is not called and nil is returned |
| `Queue.PermanentFailure` | internal/app/queue/queue.go:81-111 | a sender that always fails is called exactly `MaxRetries` times; each call, the last included, is followed by a full wait on the back-off schedule; the last error is returned |
| `Queue.StopEndsRetry` | internal/app/queue/queue.go:97-102 | a stop during a wait returns "queue stopped during retry" at once, and no send follows the interrupted wait |
| `Queue.StoppedQueueSendsOnce` | internal/app/queue/queue.go:97-102 | once stopped, each message gets a single attempt, and a failure yields the stopped error |
| `Queue.FailTwiceThenSucceed` | internal/app/queue/queue.go:77-112 | fail, fail, succeed with delays 1 and cap 10 gives waits of 1 and 2, then delivery |
| `Queue.NextDelayInt64Agrees` | internal/app/queue/queue.go:105-108 | while the doubled delay fits in int64, the 64-bit update is the intended one |
| `Queue.NextDelayInt64Overflows` | internal/app/queue/queue.go:105-108 | a delay of 2^62 ns with the largest cap wraps to a negative delay instead of the cap; the delay after that is 0 |
| `Queue.WrapInt64` | internal/app/queue/queue.go:105 | two's-complement wrap into int64, the identity on values in range |
| `Queue.StopFor` | internal/app/queue/queue.go:97-117 | once the stop channel is closed every wait is interrupted; before that a wait is interrupted exactly when the stop oracle says so |
| `Api.Admission` | internal/app/api/service.go:77-112 | the checks run in a fixed order and the first failure fixes the status: method 405, empty token 401, bad body 400, unknown token 401, lookup failure 500; each status is given exactly when its case holds |
| `Api.FanOutMembers` | internal/app/api/service.go:115-123 | a message is in the fan-out exactly when some subscription that is not paused has its user and mute flag, with the event body |
| `Api.FanOutSkipsPaused` | internal/app/api/service.go:116-118 | a paused subscription contributes nothing, wherever it stands |
| `Api.FanOutKeepsActive` | internal/app/api/service.go:119-123 | a subscription that is not paused contributes exactly its own message, in its place in the list |
| `Api.FanOutAllActive` | internal/app/api/service.go:115-123 | with nothing paused, message i belongs to subscription i |
| `Api.FanOut` | internal/app/api/service.go:115-123 | at most one message per subscription, each carrying the event body |
| `Api.BearerToken` | internal/app/api/service.go:83 | a header starting with "Bearer " yields what follows it; any other header is taken whole |
| `Api.FanOutConcat` | internal/app/api/service.go:115-131 | the fan-out of a concatenation is the concatenation of the fan-outs |
| `Api.FanOutPrefix` | internal/app/api/service.go:115-131 | the fan-out of a prefix of the subscriptions is a prefix of the fan-out |
| `Api.FanOutStep` | internal/app/api/service.go:115-123 | one more subscription adds its message exactly when it is not paused |
| `Api.FanOutOverflowsAt` | internal/app/api/service.go:124-128 | when the queue fills up at a subscription, the fan-out is longer than the room and what fitted is its prefix |
| `Api.ThreeRecipients` | internal/app/api/service.go:115-123 | of an active, a paused and a muted subscriber, exactly the active one's audible and the muted one's silent message are submitted |
| `Api.SubmitOne` | internal/app/api/service.go:116-128 | a paused subscription is skipped; otherwise its message is put, and a refusal happens only with the buffer at capacity, adding nothing |
| `Api.SubmitUntilFull` | internal/app/api/service.go:115-131 | the loop submits the fan-out of the subscriptions it passed and stops early only at a refused message, with the buffer at capacity |
| `Api.SubmitFanOut` | internal/app/api/service.go:115-131 | the queue gains the whole fan-out when it fits and exactly the part that fits otherwise; `full` says which |
| `Api.HandleNotify` | internal/app/api/service.go:76-134 | a failed check answers its status and submits nothing; otherwise 200 with the whole fan-out queued, or 503 with exactly the part that fitted left queued |
| `Subscriptions.NewSubscription` | internal/domain/subscription.go:37-44 | a new record has the given user and project, is created and updated now, and is neither silenced nor muted |
| `Subscriptions.Apply` | internal/domain/subscription.go:60-122 | each change sets or clears one field and stamps `UpdatedAt`; ID, user, project, creation time and the other field are kept |
| `Subscriptions.UndoChange` | internal/domain/subscription.go:76-122 | unsilencing undoes a silencing and unmuting undoes a muting |
| `Subscriptions.SilenceMuteCommute` | internal/domain/subscription.go:60-106 | silencing and muting are independent |
| `Subscriptions.SubscriptionService.constructor` | internal/domain/subscription.go:33-35 | the service starts over an empty repository |
| `Subscriptions.Matching` | internal/app/db/subscription.go:104-110 | exactly the IDs of the stored records with that user and project |
| `Subscriptions.LeastWitness` | internal/app/db/subscription.go:104-110 | a non-empty set of IDs has a least member |
| `Subscriptions.Least` | internal/app/db/subscription.go:104-110 | the least of a non-empty set of IDs, the row `First` picks in primary-key order |
| `Subscriptions.SubscriptionService.Lookup` | internal/app/db/subscription.go:104-110 | the repository answers the stored record of the user and project with the least ID, not found when there is none, or its failure |
| `Subscriptions.SubscriptionService.Subscribe` | internal/domain/subscription.go:37-51 | the record built by `NewSubscription` is stored under its fresh ID even when the user already has one for the project; only the repository's `Create` can fail, leaving the repository unchanged |
| `Subscriptions.SubscriptionService.Unsubscribe` | internal/app/db/subscription.go:63-68 | every record of the user for the project is deleted and no other; afterwards none is left |
| `Subscriptions.SubscriptionService.Rewrite` | internal/domain/subscription.go:60-122 | look up the first matching record, change it, save it under its ID: a failed lookup or write changes nothing and names its step |
| `Subscriptions.SubscriptionService.SilenceNotifications` | internal/domain/subscription.go:60-74 | succeeds exactly when the lookup and the write succeed; then only `SilencedUntil` (and `UpdatedAt`) of the first matching record change, otherwise nothing does |
| `Subscriptions.SubscriptionService.UnsilenceNotifications` | internal/domain/subscription.go:76-90 | the same, clearing `SilencedUntil` |
| `Subscriptions.SubscriptionService.MuteNotifications` | internal/domain/subscription.go:92-106 | the same, setting `MutedUntil` |
| `Subscriptions.SubscriptionService.UnmuteNotifications` | internal/domain/subscription.go:108-122 | the same, clearing `MutedUntil` |
| `Subscriptions.SubscriptionService.GetProjectSubscriptions` | internal/domain/subscription.go:124-130 | exactly the project's records, or the wrapped repository error |
| `Subscriptions.SubscriptionService.GetUserSubscriptions` | internal/domain/subscription.go:132-138 | exactly the user's records, or the wrapped repository error |
| `Subscriptions.SubscribeTwiceScenario` | internal/domain/subscription.go:37-51 | two subscriptions of one user to one project both succeed and are both listed; a later mute reaches only the one with the lower ID |
| `Projects.ProjectService.constructor` | internal/domain/project.go:32-34 | the service starts over an empty repository |
| `Projects.ProjectService.Create` | internal/domain/project.go:38-53 | the returned project has the given name and publisher and fresh ID and token and is the one stored; a name already in use is refused as a duplicate; a refusal or failure returns no project and stores nothing |
| `Projects.ProjectService.GetByID` | internal/domain/project.go:55-61 | the stored project, or the wrapped not-found or database error |
| `Projects.ProjectService.GetByToken` | internal/domain/project.go:63-69 | the one stored project with that token, or the wrapped not-found or database error |
| `Projects.ProjectService.GetByPublisher` | internal/domain/project.go:71-77 | exactly the publisher's projects, or the wrapped repository error |
| `Projects.ProjectService.UpdateName` | internal/app/db/project.go:91-96 | only the name and `UpdatedAt` of the given project change; a name another project holds is refused as a duplicate and changes nothing; an ID not stored changes nothing |
| `Projects.ProjectService.RegenerateToken` | internal/domain/project.go:86-92 | returns the very token it wrote for that project, a new one, and stamps `UpdatedAt`; on a repository error returns an error and changes nothing |
| `Projects.RenameClashScenario` | internal/app/db/project.go:13-20 | renaming a project to another's name and creating a second project of that name are refused; renaming a project to its own name is not |
| `TelegramUserIds.NewTelegramUserId` | internal/domain/telegram_user_id.go:19-24 | succeeds exactly for a positive id, whose `Int64` is then the id; otherwise 0 with the invalid-ID error |
| `TelegramUserIds.MustNewTelegramUserId` | internal/domain/telegram_user_id.go:28-34 | for a positive id (the source panics otherwise), the ID of that value |
| `TelegramUserIds.ToInt64` | internal/domain/telegram_user_id.go:37-39 | the underlying integer |
| `TelegramUserIds.ToString` | internal/domain/telegram_user_id.go:42-44 | a non-empty decimal rendering, signed exactly for negative values |
| `TelegramUserIds.Equal` | internal/domain/telegram_user_id.go:70-72 | equal exactly when the underlying integers are |
| `TelegramUserIds.ScanInto` | internal/domain/telegram_user_id.go:52-67 | nil, a non-int64 value and an int64 ≤ 0 are errors that leave the receiver unchanged; a positive int64 becomes the receiver's value |
| `TelegramUserIds.TelegramUserIdRef.Scan` | internal/domain/telegram_user_id.go:52-67 | the receiver and error are those of `ScanInto` |
| `TelegramUserIds.TelegramUserIdRef.constructor` | internal/domain/telegram_user_id.go:52 | a receiver holding the given ID |
| `TelegramUserIds.ValueScanRoundTrip` | internal/domain/telegram_user_id.go:47-63 | `Value` then `Scan` gives back every valid ID |
| `TelegramUserIds.Value` | internal/domain/telegram_user_id.go:47-49 | the driver value is the int64 of the ID |
| `TelegramUserIds.NewIdSurvivesStorage` | internal/domain/telegram_user_id.go:19-63 | an ID from `NewTelegramUserID` survives storing and scanning |
| `TelegramUserIds.StringParsesBack` | internal/domain/telegram_user_id.go:42-44 | `String` is the decimal rendering: parsing it gives the integer back |
| `AppConfig.Setting` | internal/app/config.go:32-42 | a variable is set exactly when present and non-empty |
| `AppConfig.PortSetting` | internal/app/config.go:45 | 8080 when the port is unset, 0 when it does not parse, otherwise the int64 it parses to |
| `AppConfig.LoadConfig` | internal/app/config.go:25-75 | a returned configuration has both required variables, a valid port, a normalised valid format and level, and the trimmed token and DSN |
| `AppConfig.LoadConfigCheckOrder` | internal/app/config.go:36-66 | the checks run in the order token, DSN, port, format, level; each error is reported exactly when its check is the first to fail, and success exactly when all pass |
| `AppConfig.LoadConfigAccepts` | internal/app/config.go:68-74 | when every check passes, the configuration holds the checked values with token and DSN trimmed |
| `AppConfig.NormalizedCasing` | internal/app/config.go:51-57 | any casing of a valid word, padded with white space, normalises to the word |
| `AppConfig.NormalizedWord` | internal/app/config.go:51-57 | a lower-case ASCII word normalises to itself |
| `AppConfig.DefaultsNormalized` | internal/app/config.go:28-29 | the default format and level normalise to json and info |
| `AppConfig.DefaultsApply` | internal/app/config.go:27-29 | with only the two required variables set, the port is 8080, the format json and the level info |
| `AppConfig.NonNumericPortRejected` | internal/app/config.go:45-48 | a port not starting with a sign or digit reads as 0 and is rejected as 0 |
| `AppConfig.PortZeroRejected` | internal/app/config.go:45-48 | a port of "0" is rejected |
| `AppConfig.PortTooLargeRejected` | internal/app/config.go:45-48 | a decimal port above 65535 is rejected with its value |
| `AppConfig.PortInRangeAccepted` | internal/app/config.go:45-48 | every decimal port in 1..65535 is accepted as that number |
| `AppConfig.SeparatedPortAccepted` | internal/app/config.go:45-48 | a port written "8_080" is accepted as 8080 |
| `AppConfig.UnknownFormatRejected` | internal/app/config.go:51-54 | after token, DSN and port pass, a format normalising to neither json nor text is rejected, naming its normalisation |
| `AppConfig.OtherLengthFormat` | internal/app/config_test.go:143-163 | a trimmed format whose length is not 4, such as "invalid-format", is not a format |
| `AppConfig.OtherLengthLevel` | internal/app/config_test.go:165-185 | a trimmed level whose length is not 4 or 5, such as "invalid-level", is not a level |
| `AppConfig.UnknownLevelRejected` | internal/app/config.go:57-66 | with the default format, a level outside the four is rejected, naming its normalisation |
| `AppConfig.CaseInsensitiveSettings` | internal/app/config.go:51-66 | format and level are accepted in any casing and with surrounding white space, and stored lower-cased and trimmed |
| `AppConfig.TestScenarioWithoutDsn` | internal/app/config_test.go:31-55 | the test's environment, which sets no DSN, is rejected with the DSN error |
| `AppConfig.Parses9090` | internal/app/config.go:45 | "9090" reads as port 9090 |
| `AppConfig.TestTokenTrimmed` | internal/app/config.go:69 | "test-token" is already trimmed |
| `AppConfig.TestScenarioWithDsn` | internal/app/config_test.go:31-55 | the same environment with a DSN added gives token "test-token", port 9090, format text and level debug |
| `AppConfig.NewQueueConfig` | internal/app/config.go:102-109 | capacity 1000, first delay one second, cap one minute, 10 attempts |
| `AppConfig.DefaultRetryWaits` | internal/app/config.go:102-109 | under that configuration the ten waits last 1, 2, 4, 8, 16, 32, 60, 60, 60 and 60 seconds |
| `Logging.LevelName` | internal/app/log.go:41-48 | each level's name is a lower-case ASCII word |
| `Logging.FormatName` | internal/app/log.go:22-29 | each format's name is a lower-case ASCII word |
| `Logging.UpperLevelName` | internal/app/log.go:41-48 | the upper case of each level's name is the spelling the switch compares with |
| `Logging.UpperFormatName` | internal/app/log.go:22-29 | the upper case of each format's name is the spelling the switch compares with |
| `Logging.ParseLogLevel` | internal/app/log.go:39-52 | an error comes with `LevelInfo` and names the input |
| `Logging.ParseLogLevelSpec` | internal/app/log.go:39-52 | a level parses exactly when its upper case is that of a level's name, and then to that level |
| `Logging.ParseLogLevelAnyCasing` | internal/app/log.go:39-48 | any casing of debug, info, warn or error parses to that level |
| `Logging.ParseLevelName` | internal/app/log.go:39-48 | the parse of a level's name is that level |
| `Logging.DotlessInfoParses` | internal/app/log.go:40-44 | "ınfo" with a dotless i also parses as info, because upper-casing maps that rune to I |
| `Logging.InitLogger` | internal/app/log.go:11-37 | a level error is reported first, naming the configured level; otherwise a format error names the upper-cased format; success carries the parsed level |
| `Logging.InitLoggerFormatSpec` | internal/app/log.go:19-31 | with a valid level, the format is accepted exactly when its upper case is TEXT or JSON, and it selects that handler |
| `Logging.InitLoggerAnyCasing` | internal/app/log.go:11-31 | any casing of a level name and a format name is accepted with that level and format |
| `Logging.ValidSettingsInitLogger` | internal/app/log.go:13-31 | a level and format that the configuration's checks accept pass both logger checks with the same names |
| `Logging.LoadedConfigInitsLogger` | internal/app/log.go:13-31 | every configuration `LoadConfig` returns passes both logger checks with the level and format it names |
| `BotState.Entry` | internal/app/bot/state_manager.go:46-54 | a user with an entry answers its state and data and true; one without answers no dialog, no data and false |
| `BotState.KeepFresh` | internal/app/bot/state_manager.go:83-88 | after a sweep exactly the entries no more than five minutes old remain, unchanged |
| `BotState.Stale` | internal/app/bot/state_manager.go:85 | only an entry created before `now` can be stale |
| `BotState.StaleStaysStale` | internal/app/bot/state_manager.go:85 | a stale entry stays stale at every later time |
| `BotState.StateManager.constructor` | internal/app/bot/state_manager.go:36-43 | a new store is empty |
| `BotState.StateManager.GetState` | internal/app/bot/state_manager.go:46-54 | the user's state and data with true, or no dialog, no data and false for a user without an entry |
| `BotState.StateManager.SetState` | internal/app/bot/state_manager.go:57-65 | the user's entry is replaced and stamped with now; every other entry is kept |
| `BotState.StateManager.ClearState` | internal/app/bot/state_manager.go:68-72 | the user's entry is removed; every other entry is kept |
| `BotState.StateManager.SweepStale` | internal/app/bot/state_manager.go:75-94 | one sweep removes exactly the entries strictly more than five minutes old and keeps the rest |
| `BotState.GetAfterSet` | internal/app/bot/state_manager.go:46-65 | after `SetState`, `GetState` answers what was set, with true |
| `BotState.OthersUnaffected` | internal/app/bot/state_manager.go:57-72 | `SetState` and `ClearState` leave every other user's answer alone |
| `BotState.GetAfterClear` | internal/app/bot/state_manager.go:46-72 | after `ClearState` the user has no entry |
| `BotState.FreshForFiveMinutes` | internal/app/bot/state_manager.go:85 | an entry set at t survives every sweep up to t plus five minutes, and none after |
| `BotState.SweepsCompose` | internal/app/bot/state_manager.go:75-94 | a sweep followed by a later sweep is the later sweep alone |
| `BotState.SweepCommutesWithClear` | internal/app/bot/state_manager.go:68-94 | clearing a user and sweeping can be done in either order |
| `GoStrings.TrimSpace` | internal/app/config.go:51-73 | the result has no white space at either end and is no longer than the input |
| `GoStrings.TrimSpacePadded` | internal/app/config.go:51-57 | trimming removes exactly the white space around a trimmed core |
| `GoStrings.TrimSpaceIdempotent` | internal/app/config.go:51-57 | trimming twice is trimming once |
| `GoStrings.TrimPrefix` | internal/app/api/service.go:83 | a leading prefix is removed, leaving what follows it; without the prefix the input is kept |
| `GoStrings.TrimPrefixOnce` | internal/app/api/service.go:83 | only one copy of the prefix is removed |
| `GoStrings.ToLower` | internal/app/config.go:51-57 | the result has the input's length and each rune is the lower case of the input's rune there |
| `GoStrings.ToUpper` | internal/app/log.go:19-40 | the result has the input's length and each rune is the upper case of the input's rune there |
| `GoStrings.CasingOfMaps` | internal/app/config.go:51-57 | any casing of a lower-case ASCII word lower-cases to the word and upper-cases to its upper case |
| `GoStrings.ToLowerIdempotent` | internal/app/config.go:51-57 | lower-casing twice is lower-casing once |
| `GoStrings.ParseIntNonNumeric` | internal/app/config.go:45 | a string starting with neither a sign nor a digit does not parse |
| `GoStrings.ParseFormatRoundTrip` | internal/app/config.go:45 | parsing the decimal rendering of an int64 gives it back |
| `GoStrings.ParseInt` | internal/app/config.go:45 | the empty string does not parse, and only a string starting with '-' parses to a negative value |
| `GoStrings.TrailingUnderscoreRejected` | internal/app/config.go:45 | a literal ending in an underscore does not parse |
| `GoStrings.SeparatedDigits` | internal/app/config.go:45 | "8_080" parses to 8080; a doubled or a leading underscore does not parse |
| `GoStrings.FormatInt` | internal/domain/telegram_user_id.go:42-43 | the rendering is non-empty and starts with '-' exactly for a negative value |

## Left out

- Concurrency. The consumer goroutine, the `WaitGroup`, the state store's mutex and the ticker goroutine are not modelled. The consumer runs one message at a time (`ConsumeNext`), and a sweep is one call of `SweepStale`.
- Channel closing. `Stop` of the queue is a flag that every later wait observes. `Stop` of the state store only closes its stop channel, so it has no model.
- Time. `time.Now` and `time.After` are not modelled: `now` is a parameter and a wait is a trace event.
- HTTP. The server, its `Start`/`Stop`, `http.Error` bodies and JSON decoding are left out; the request is reduced to its method, header and decode outcome.
- `Paused()` is not defined in the code this model covers, so it is an input predicate of the subscription and `now`.
- The "other `Put` error" branch of `handleNotify` is left out: `Put` only ever returns nil or `ErrQueueFull`, so that branch cannot run.
- A capacity-0 queue is not modelled. In Go its `Put` succeeds only when the consumer is waiting at that moment; in this model it always reports a full queue.
- Queue.Queue.Put: requires a queue that is not stopped, because in Go a `Put` after `Stop` sends on a closed channel and panics.
- Queue.Queue.Stop: requires a queue not stopped before, because closing twice panics. It does not restate each message's retry outcome, which `ConsumeNext` states.
- Queue.SendWithRetry: delays are unbounded integers following the corrected doubling; the 64-bit wrap-around is `Queue.NextDelayInt64`, kept apart (see Findings). After `Stop` every wait counts as interrupted (`Queue.StopFor`). In Go, when the delay is 0 or negative, `time.After` is ready at the same moment as the closed stop channel, and `select` then picks either case at random.
- Queue.Queue.Start: requires a sender, because `Start` panics without one. The log line is left out.
- `os.Exit(1)` is the terminal `Exited` phase. Its log line and the process's end are not modelled.
- Repositories. The gorm repositories and the database are in-memory maps keyed by primary key. Each call's failure is an input flag, and the wrapped error text is a datatype constructor. A unique-column violation is the `DuplicateRecord` error. The mapping of the database records to the domain structs is left out.
- Subscriptions.SubscriptionService.Subscribe: requires a fresh ID not in use, standing for `uuid.New()`.
- Subscriptions.Least: gorm's `First` orders by primary key. The model orders UUIDs as integers, which stands for the database's ordering of the UUID column.
- Projects.ProjectService.Create and Projects.ProjectService.RegenerateToken: require a fresh ID and token not in use, standing for `uuid.New()`. The error case returns no token rather than "".
- Projects.ProjectService.GetByToken: token uniqueness is part of the service's invariant, standing for the unique token column.
- Projects.ProjectService.UpdateName and Projects.ProjectService.RegenerateToken report no error for an ID that is not stored, as an SQL `UPDATE` matching no row does. They take `now` for the `UpdatedAt` stamp that gorm's `Update` writes.
- Projects.ProjectService.Create: a repository failure is checked before a duplicate name; a database that reports both at once is not modelled.
- UUID generation, `slog.SetDefault` and the creation of the text and JSON handlers are left out; `InitLogger` returns the handler's level and format.
- viper. Only what `LoadConfig` asks of viper is modelled: the NOTEO_ prefix, an empty value counting as unset, and `GetInt` as `strconv.ParseInt(s, 0, 64)` with 0 on failure. That covers base prefixes, signs and `_` digit separators. Configuration files are left out.
- AppConfig.LoadConfig: the port conversion does not model the string trimming of the cast library, which some versions apply before parsing ("8080.0" read as 8080). Which version is used is not part of this model.
- GoStrings.ToLower and GoStrings.ToUpper map ASCII letters plus the four non-ASCII runes whose case mapping reaches ASCII (U+0130 and U+212A when lower-casing, U+0131 and U+017F when upper-casing). Other Unicode letters are left unchanged. That cannot change which values the configuration and logger checks accept.
- AppConfig.LoadConfig: the text of a rejected format or level keeps other non-ASCII letters as written, where Go lower-cases them ("JSÖN" is reported as "jsÖn", not "jsön"). This follows from the case mapping above.
- Logging.InitLogger: the same applies to the upper-cased format in its error.
- `NewBotConfig`, `NewAPIConfig` and `NewDBConfig` (internal/app/config.go:78-100) are plain field copies and are not modelled.
- BotState models a user ID as an unbounded integer rather than Go's `int`, and the dialog data as an abstract type.
- The bot handlers and menus, the DI container, `app.go` and `main.go` are not part of this model.

## Notes on the source

- The domain subscription has `SilencedUntil` and `MutedUntil`, and the model follows it. The notify handler instead reads `Muted` and `PausedUntil`, and the database record agrees with the handler. `Api.Subscriber` models the handler's view of a subscription.
- Nothing in the subscription repository keeps one record per user and project: the record's only key is its ID (internal/app/db/subscription.go:13-21). A second `Subscribe` stores a second record, so `handleNotify` queues two messages for that user. Silencing and muting then reach only the first record, and `Unsubscribe` deletes both. The bot's check for an "already exists" error (internal/app/bot/subscriptions.go:77-85) never matches. `Subscriptions.SubscribeTwiceScenario` shows the double listing and the partial mute.
- `GetState` returns three values, but internal/app/bot/main_menu.go:64 takes two. The model follows state_manager.go.
- The configuration tests at internal/app/config_test.go:31-55 and 75-208 set no `NOTEO_DB_DSN`, but `LoadConfig` requires it. Under this code their environments are rejected with the DSN error, as `AppConfig.TestScenarioWithoutDsn` shows. The other test lemmas suppose a DSN is set.

## Findings

| source | as written | input that shows it | evidently intended | confidence | as-written member | corrected member |
|---|---|---|---|---|---|---|
| internal/app/queue/queue.go:105-108 | `delay *= 2` on a 64-bit `time.Duration` wraps around before it is compared with the cap | a delay of 2^62 ns with `MaxRetryDelay` = 2^63−1 doubles to −2^63, which is below the cap; every later wait is 0 | the delay doubles and saturates at `MaxRetryDelay` | not executed | `Queue.NextDelayInt64Overflows` | `Queue.DelayAtBounded` |
