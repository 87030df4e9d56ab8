# A model of the Kafka consumer group and its companions

The repository's Go application consumes a Kafka topic in a group: it retries each message with backoff, sends what
keeps failing to a dead letter queue (DLQ), commits by hand, survives rebalances, and authenticates with Keycloak tokens
that a background goroutine refreshes. A second variant of the consumer uses static SCRAM credentials. Beside them stand
a producer and a Python load generator. This project models those programs and proves what they keep in every run.

## How it is built

* **Retry** (`Backoff`, `Retry`): the loop of `WithRetry` as a method over an arbitrary business function, an arbitrary
  cancellation time and an arbitrary winner when a timer and a cancellation coincide. Durations are nanoseconds, the
  multiplier is any ratio of integers, and quotients are rounded toward zero.
* **DLQ** (`Numerals`, `Dlq`, `DlqPublisher`): decimal printing, message identifiers, provenance headers over any number of
  hops, and the publisher object with its queue, token and shutdown. `DeadLetters` reads off a loop's actions what its
  publisher must have received.
* **Tokens** (`Tokens`, `Keycloak`, `TokenCache`, `TokenDeadline`): the client object and its refresh loop; the lock protocol
  of the shared cache under any interleaving of goroutines; and a timed machine in which the refresh loop and the consume
  loop's on-demand refresh interleave. `OAuthTokens` follows the tokens of a consumer process through its run.
* **Consumers** (`Broker`, `ConsumeEvents`, `ScramConsumer`, `OAuthConsumer`): one step function per variant for the consume
  loop, and groups of any number of them. `Broker` is the small interface they rely on: contiguous delivery from
  the fetch position, at most one owner per partition, commits rejected from anyone but the owner, a commit stores the
  offset plus one, and an assignment resumes at the committed position or at the log end. A process can be evicted without
  noticing, can go on fetching and handling, and can stop between any two effects.
* **Safety** (`ScramSafety`, `ScramTheorems`, `ScramDrain`, `ScramLoss`, `ScramRepeats`): invariants of a SCRAM group and what
  they say about whole runs. `Simulation` proves that OAuth runs are SCRAM runs with the tokens erased, and the converse from
  any state, and carries the theorems over.
* **Programs** (`RetryRefinement`, `PlainHandling`, `OAuthLoop`, `ScramLoop`, `ProgramInGroup`): both `main` functions as
  methods over mutable objects. Each method returns the loop events it went through, and its contract says that they are a
  run of the step function; the timed retry engine is shown to refine the step function's retry steps, signal included.
  `PlainHandling` writes out, in terms of the business function alone, what handling comes to when no signal comes, and the
  programs are proved equal to it. `ProgramInGroup` puts both programs back into the group: any stretch of a run is a run
  of the group, and the publisher's accounts mirror the group's history.
* **Companions** (`Producer`, `LoadStats`, `LoadTest`).
* **Shared notions** (`Wrappers`, `Durations`, `Machines`, `LoopRuns`): options, time units, and runs of step functions.

Randomness, HTTP outcomes and durations, delivery reports, broker behaviour and the clock are parameters or events.

## Where the code and its comments differ

The model follows the code.

* The comment on `WithRetry` promises the last error when the context is cancelled; the code returns the context's own error.
* The first wait is never capped by `MaxWait`.
* With `MaxAttempts` below 1 the code dereferences a nil error; `Retry.WithRetry` reports exactly those configurations as `Panicked`.
* The metric's comment lists a `retry` status; no line ever counts it.
* The load generator prints a total of 1 before the first sample.

## Properties that hold only under a condition

* The closed form of the backoff holds exactly when `CapIsStable` does (`Backoff.ClosedFormExactly`): a negative cap with
  growing waits breaks it.
* As long as only the refresh loop refreshes, the token in force is unexpired up to any instant after the last push exactly
  when each round, failures and pauses included, fits into 30 s or into what is left of the replaced token if that is
  shorter, and the last token lasts (`Keycloak.NeverLapsesExactly`).
* The DLQ producer's token is unexpired at every instant of every run, to the end of the process, exactly when no refresh of
  the loop and no push to that producer fails, the timing is sound (the shortest lifetime exceeds the longest sleep, two
  requests and a push) and, should the shutdown signal come, the process drains in time
  (`TokenDeadline.NeverLapsesExactly`). One failed refresh, or one refused push, is enough under every timing
  (`OneFailureLapses`, `OneRefusalLapses`), and an on-demand refresh under every unsound one (`UnsoundLapses`). The signal
  ends the refresh loop while the consumer still finishes its message and flushes: a drain of 30 s or more always outlives
  some token (`LongDrainLapses`), and the default attempt timeout of 30 s allows that.
* Nothing is skipped from where a partition would resume exactly when it has a committed position; otherwise
  `auto.offset.reset=latest` lets a message that arrives between owners be committed past unhandled
  (`ScramLoss.NothingSkippedExactly`, `Simulation.OAuthNothingSkippedExactly`; `ScramLoss.GapBeforeFirstCommit` is an
  example).
* The cached expiry only grows, whatever the scheduler does until the next grant, exactly when the tokens in flight expire
  together and no earlier than what is stored (`TokenCache.ExpiryMonotoneExactly`; `TokenCache.ExpiryMayRegress` is an
  example of the contrary).

## Model

| member | source | states |
|---|---|---|
| Backoff.ClosedForm | kafka-go-app/internal/middleware/retry.go:75-79 | for any integer multiplier the k-th wait, k at least 2, is the initial wait times M^(k-1), capped |
| Backoff.ClosedFormExactly | kafka-go-app/internal/middleware/retry.go:46-79 | that closed form holds for all waits if and only if the cap is not negative, M is 1, or the first product is already below the cap |
| Backoff.GeometricEnvelope | kafka-go-app/internal/middleware/retry.go:75-79 | for any ratio at least 1, truncation keeps every wait non-negative, and from the second on at most capped geometric growth |
| Backoff.NonDecreasing | kafka-go-app/internal/middleware/retry.go:75-79 | from the second wait on the waits never shrink, truncation included |
| Backoff.StaysAtCap | kafka-go-app/internal/middleware/retry.go:77-79 | a wait that reached the cap stays there |
| Backoff.BackoffSumBound | kafka-go-app/internal/middleware/retry.go:66-80 | the waits before attempt n add up to at most InitialWait + (n-2)*MaxWait, whatever the multiplier |
| Backoff.NextWaitExactly | kafka-go-app/internal/middleware/retry.go:75-79 | every further wait is the product rounded toward zero, or the cap when the product reaches it, for every sign |
| Retry.WithRetry | kafka-go-app/internal/middleware/retry.go:39-89 | the loop makes exactly the n attempts after which it must stop, with these effects at these times; the first call comes at the start, every wait begins when its failed call returns and has its full length, the next call comes when it is over, and the run ends when the last call returns or its backoff is cut short; nil error iff the last call succeeded and all earlier failed, the context's error iff a backoff was cut short, the last call's error otherwise; it panics iff MaxAttempts is below 1 |
| Retry.ExactlyOneRun | kafka-go-app/internal/middleware/retry.go:49-80 | for every MaxAttempts of at least 1 and every oracle there is exactly one number of attempts, and it is at most MaxAttempts |
| Retry.Accounting | kafka-go-app/internal/middleware/retry.go:49-73 | calls made equal the reported attempts and completed sleeps are one fewer |
| Retry.ExactDuration | kafka-go-app/internal/middleware/retry.go:49-80 | a run that is not cut short lasts exactly the durations of its calls plus the backoff between them |
| Retry.LastAttemptAfterCancellation | kafka-go-app/internal/middleware/retry.go:66-73 | an attempt that begins after cancellation is the last one when the wait after it is positive, and its backoff ends at once |
| Retry.DurationBound | kafka-go-app/internal/middleware/retry.go:49-80 | a run lasts at most MaxAttempts timeouts plus the full backoff, also when it is cut short |
| Retry.PollGapBound | kafka-go-app/internal/middleware/retry.go:49-80 | the same bound from the configuration alone |
| Numerals.DecimalRoundTrip | kafka-go-app/internal/dlq/publisher.go:75-77 | the printed decimal of any integer parses back and contains no slash |
| Numerals.DecimalCanonical | kafka-go-app/internal/dlq/publisher.go:75-77 | a printed number is digits without a leading zero, after a minus sign exactly for negative numbers |
| Numerals.DigitsUnique | kafka-go-app/internal/dlq/publisher.go:75-77 | and it is the only such numeral that parses to the number |
| Numerals.MessageIdRoundTrip | kafka-go-app/cmd/consumer/main.go:195 | topic/partition/offset splits at its last two slashes into the same triple, for every topic string |
| Numerals.MessageIdShape | kafka-go-app/cmd/consumer/main.go:195 | the identifier begins with the topic and a slash and ends with a slash and the offset |
| Numerals.MessageIdInjective | kafka-go-app/cmd/consumer/main.go:195 | different messages have different identifiers |
| Dlq.ExtractHeader | kafka-go-app/cmd/consumer/main.go:328-335 | the value of the first header with the key, the empty string if there is none |
| Dlq.ChainKeepsMessage | kafka-go-app/internal/dlq/publisher.go:72-89 | over any number of DLQ hops key and value survive, the original headers stay a prefix, each hop adds six, and the message is in the topic of the last hop |
| Dlq.ChainKeepsHeader | kafka-go-app/internal/dlq/publisher.go:72-79 | looking up any key outside `dlq.` gives the same value after any number of hops |
| Dlq.ChainTrail | kafka-go-app/internal/dlq/publisher.go:72-79 | what hop i wrote is still in place at the end and describes the message that failed at hop i |
| Dlq.TrailRoundTrip | kafka-go-app/internal/dlq/publisher.go:72-79 | error, topic, partition, offset, attempts and time of every hop are readable, under their six keys, from the final message |
| Dlq.LetterReadsBack | kafka-go-app/internal/dlq/publisher.go:72-89 | a dead letter goes to the DLQ topic with the message's key, value and headers, and its six further headers read back to the error, the message's coordinates, the attempts and the time |
| Dlq.OriginRoundTrip | kafka-go-app/internal/dlq/publisher.go:72-79 | if the source carried no `dlq.` header, the first original headers parse back to its topic, partition and offset |
| DlqPublisher.Publisher.Publish | kafka-go-app/internal/dlq/publisher.go:67-107 | the message with its provenance is either queued or refused, nothing else changes, and every published message keeps exactly one fate |
| DlqPublisher.Publisher.Drain | kafka-go-app/internal/dlq/publisher.go:43-61 | a delivery report moves exactly its message out of the queue, to delivered or to undelivered |
| DlqPublisher.Publisher.Close | kafka-go-app/internal/dlq/publisher.go:114-117 | each report that arrives while flushing moves its message to delivered or undelivered, in the order of the reports, and what is left in the queue is dropped; without failed reports nothing becomes undelivered, without successful ones nothing delivered |
| DlqPublisher.FlushConserves | kafka-go-app/internal/dlq/publisher.go:46-61 | flushing loses and doubles no message: what is left, delivered and undelivered is together the queue, one message leaves it per report, and without a failed report none is undelivered |
| Keycloak.KeycloakClient.DoRefresh | kafka-go-app/internal/auth/keycloak.go:116-141 | succeeds iff both steps do; then the cache holds the new token, expiring its lifetime after the exchange ended; otherwise the cache is unchanged |
| Keycloak.KeycloakClient.SleepDuration | kafka-go-app/internal/auth/keycloak.go:143-154 | the sleep ends 30 s before the cached expiry, or at once |
| Keycloak.KeycloakClient.RefreshRound | kafka-go-app/internal/auth/keycloak.go:81-104 | attempts begin 30 s before expiry, or at once, and 5 s after each failed one ended; none that was waited for begins after the shutdown; a shutdown before the last attempt means no push and an unchanged cache, none or a later one means a push as long after it as the two requests take |
| Keycloak.KeycloakClient.RefreshLoop | kafka-go-app/internal/auth/keycloak.go:79-110 | over any rounds, cancellation time and outcome of every race, the loop pushes exactly the tokens, at exactly the times, of the rounds before the first that the shutdown cuts short; no attempt that it waited for, in a sleep or a pause, begins after the shutdown, and it stops only for a shutdown no later than the last attempt of that round |
| Keycloak.CutShortWhen | kafka-go-app/internal/auth/keycloak.go:86-103 | a shutdown before the last attempt of a round cuts the round short, if that attempt is waited for at all; a later one never does |
| Keycloak.FailureTimeAddsUp | kafka-go-app/internal/auth/keycloak.go:95-103 | failed attempts cost the sum of their durations and 5 s each |
| Keycloak.NeverLapsesExactly | kafka-go-app/internal/auth/keycloak.go:79-110 | without on-demand refreshes, and up to any instant after the last of any rounds: the token in force is unexpired throughout if and only if every round fits in 30 s, or in what is left of the replaced token if that is shorter, and the last token has not expired |
| Keycloak.SuccessNeverLapses | kafka-go-app/internal/auth/keycloak.go:79-110 | without on-demand refreshes: if every attempt succeeds within its HTTP timeouts and lifetimes are 20 s or more, no pushed token lapses, up to the latest end of the attempt that follows the last push |
| TokenCache.CurrentIsLinearizable | kafka-go-app/internal/auth/keycloak.go:67-74 | under every interleaving `Current` returns the empty token or the whole token of the last write in lock order, granted for a base token from step one, and later reads see at least as many writes |
| TokenCache.NoNilDereference | kafka-go-app/internal/auth/keycloak.go:68-73 | the nil check protects the dereference in every run |
| TokenCache.MutualExclusion | kafka-go-app/internal/auth/keycloak.go:129-131 | one writer at a time, and none together with a reader |
| TokenCache.RunKeepsInv | kafka-go-app/internal/auth/keycloak.go:116-141 | in every reachable state the cache equals the last write in lock order |
| TokenCache.StepKeepsInv | kafka-go-app/internal/auth/keycloak.go:116-132 | nothing but a write changes the cached token: neither a failed refresh nor any other step of any goroutine |
| TokenCache.EveryRunLogged | kafka-go-app/internal/auth/keycloak.go:67-74 | from the events of a run alone: the stored tokens are, in lock order, what the writing goroutines received last, and every completed `Current` has returned |
| TokenCache.ExpiryMonotoneExactly | kafka-go-app/internal/auth/keycloak.go:129-131 | in any reachable state, whatever the scheduler does until the next token is granted, the cached expiry only grows if and only if the tokens in flight expire together and no earlier than anything stored, the one already inside the lock no later than the others |
| TokenDeadline.NeverLapsesExactly | kafka-go-app/cmd/consumer/main.go:86-150 | for all delays, lifetimes and drain times, any bounds on failed refreshes of the loop and on refused pushes, with or without a shutdown: the DLQ producer's token is unexpired at every instant of every run to the end of the process, on-demand refreshes included, if and only if both bounds are zero, the shortest lifetime exceeds the longest possible sleep, two 10 s requests and a push, and, if the signal may come, the longest sleep and the drain |
| TokenDeadline.DlqTokenFollowsLoop | kafka-go-app/cmd/consumer/main.go:250-262 | failures or not, the DLQ producer holds the last loop-issued token it accepted, or the initial one; an on-demand token never reaches it |
| TokenDeadline.WaitsExactly | kafka-go-app/internal/auth/keycloak.go:79-103 | whatever happens meanwhile, the loop wakes exactly 30 s before the expiry cached when it computed its sleep, or at once, and retries exactly 5 s after a failure |
| TokenDeadline.OneFailureLapses | kafka-go-app/internal/auth/keycloak.go:94-104 | for every timing a run with one failed loop refresh, and no on-demand refresh, in which the DLQ producer's token is expired when, two slow attempts and the 5 s pause after the wake-up, the retry has its token |
| TokenDeadline.OneRefusalLapses | kafka-go-app/cmd/consumer/main.go:146-149 | for every timing a run with one refused, merely logged push in which it expires |
| TokenDeadline.UnsoundLapses | kafka-go-app/cmd/consumer/main.go:250-262 | for every other timing a run without any failure in which an on-demand token in the cache makes the loop sleep past its expiry |
| TokenDeadline.ShutdownLapses | kafka-go-app/internal/auth/keycloak.go:86-89 | if the drain is too long, a run without any failure in which the signal ends the loop and the token expires before the process does |
| TokenDeadline.LongDrainLapses | kafka-go-app/internal/auth/keycloak.go:86-89 | a drain of 30 s or more is too long under every timing, also without any on-demand refresh |
| Broker.PerformKeepsAccounts | kafka-go-app/internal/dlq/publisher.go:91-117 | every effect of a consume loop keeps each handling in exactly one of six classes |
| Broker.HappenKeepsAccounts | kafka-go-app/internal/dlq/publisher.go:43-61 | so does every delivery report, append and eviction |
| ScramSafety.CommitExtends | kafka-cluster/cluster-without-oauth/kafka-go-app/cmd/consumer/main.go:206-213 | a commit keeps everything from the base to the committed position handled and never moves it back |
| ScramSafety.CommitCatchesUp | kafka-cluster/cluster-without-oauth/kafka-go-app/cmd/consumer/main.go:206-213 | a commit that takes effect reaches the fetch position, over earlier failed commits, so the next session resumes exactly there |
| ScramSafety.LoopKeepsInv | kafka-cluster/cluster-without-oauth/kafka-go-app/cmd/consumer/main.go:147-227 | every step of every consumer keeps the delivery invariant of the whole group |
| ScramSafety.ElsewhereKeepsInv | kafka-cluster/cluster-without-oauth/kafka-go-app/cmd/consumer/main.go:262-277 | so do evictions, appends and delivery reports |
| ScramTheorems.EveryRunDelivers | kafka-cluster/cluster-without-oauth/kafka-go-app/cmd/consumer/main.go:147-227 | at-least-once across the group in every run: each offset from the position committed before the run, or else from the first committing session's start, to the committed position was processed or passed to the publisher |
| ScramTheorems.CommitsNeverRegress | kafka-cluster/cluster-without-oauth/kafka-go-app/cmd/consumer/main.go:206-213 | along every run committed positions only advance, across any rebalances |
| ScramTheorems.EveryRunAccounts | kafka-cluster/cluster-without-oauth/kafka-go-app/cmd/consumer/main.go:189-213 | each handling is in exactly one class, and a message is missing from both success and DLQ iff all its handlings were recorded failures, are still queued, or were lost in a queue |
| ScramTheorems.EveryRunFates | kafka-cluster/cluster-without-oauth/kafka-go-app/internal/dlq/publisher.go:46-64 | which class, from the events of a run alone: processed iff its attempt succeeded, refused iff the producer refused it, delivered (in order) and undelivered exactly as reported, dropped iff queued by a process when that ended |
| ScramTheorems.MetricsExactAtHead | kafka-cluster/cluster-without-oauth/kafka-go-app/cmd/consumer/main.go:186-204 | at every loop head, per topic, the success and DLQ metrics count this process's handlings of that kind, and the observations are their sum |
| ScramDrain.BoundedDrain | kafka-cluster/cluster-without-oauth/kafka-go-app/cmd/consumer/main.go:147-227 | after cancellation, in any run, at most one more message completes, at most one more attempt begins, only an attempt already under way can succeed, and the loop's steps are bounded by a decreasing measure |
| ScramDrain.OnlySignalStops | kafka-cluster/cluster-without-oauth/kafka-go-app/cmd/consumer/main.go:147-153 | in every run a consumer leaves its loop, or cuts a backoff short, only after its own signal, and enters the loop's body only before it |
| ScramDrain.DrainCompletes | kafka-cluster/cluster-without-oauth/kafka-go-app/cmd/consumer/main.go:147-153 | a cancelled loop is never stuck: from every state it can reach its end by itself within that measure |
| ScramLoss.NothingSkippedExactly | kafka-cluster/cluster-without-oauth/kafka-go-app/cmd/consumer/main.go:118-119 | from any reachable state of the group, no continuation commits past an offset that nobody handled, counting from where the partition would resume now, if and only if the partition has a committed position |
| ScramLoss.GapRun | kafka-cluster/cluster-without-oauth/kafka-go-app/cmd/consumer/main.go:118-119 | without one, from any such state, a run in which a message arrives between owners and is committed past unhandled |
| ScramRepeats.OwnersNeverRepeat | kafka-cluster/cluster-without-oauth/kafka-go-app/cmd/consumer/main.go:206-213 | in every run a message below the committed position is handled again only by a process that lost the partition without noticing; an owner handles only what is not yet committed |
| ScramRepeats.EveryOwnerAssigned | kafka-cluster/cluster-without-oauth/kafka-go-app/cmd/consumer/main.go:262-277 | in every run whoever owns a partition has it assigned or has ended: what a process gives up, or is not assigned again, it does not own |
| ScramRepeats.OwnersKeep | kafka-cluster/cluster-without-oauth/kafka-go-app/cmd/consumer/main.go:262-277 | a partition is taken from its owner only by a step of the owner itself or by the group coordinator evicting it, whatever other consumers do |
| Simulation.StepSimulates | kafka-go-app/cmd/consumer/main.go:178-274 | every step of the OAuth loop is the SCRAM loop's step on the same event with the same effect, or a stutter |
| Simulation.RunSimulates | kafka-go-app/cmd/consumer/main.go:178-274 | every OAuth group run with tokens erased is a SCRAM group run with the same handlings, DLQ contents, commits and metrics |
| Simulation.RunEmbeds | kafka-cluster/cluster-without-oauth/kafka-go-app/cmd/consumer/main.go:147-227 | conversely every SCRAM run is the erasure of an OAuth run without refreshes |
| Simulation.RunLifts | kafka-cluster/cluster-without-oauth/kafka-go-app/cmd/consumer/main.go:147-227 | and from every state of an OAuth group, whatever its tokens and even in the middle of an on-demand refresh, every SCRAM run from the erased state is the erasure of an OAuth run: the variants can do exactly the same |
| Simulation.OAuthDelivers | kafka-go-app/cmd/consumer/main.go:178-248 | at-least-once delivery and exact accounting for every run of an OAuth group |
| Simulation.OAuthFates | kafka-go-app/internal/dlq/publisher.go:43-61 | the fate of every handling of an OAuth run, from its events alone |
| OAuthTokens.EveryRunHolds | kafka-go-app/cmd/consumer/main.go:136-150 | in every run of a process, from its events alone and however the two refresh paths interleave: the cache holds the token obtained last, the consumer the one it took last, the DLQ producer the last loop token it took, which an on-demand token never is |
| Simulation.OAuthMetricsExact | kafka-go-app/cmd/consumer/main.go:212-238 | the metrics of an OAuth consumer are exact at every loop head, per topic |
| Simulation.OAuthCommitsNeverRegress | kafka-go-app/cmd/consumer/main.go:240-248 | committed positions only advance in every OAuth run |
| Simulation.OAuthNothingSkippedExactly | kafka-go-app/cmd/consumer/main.go:120-127 | from any reachable state of an OAuth group nothing is skipped from where a partition would resume, in any continuation, if and only if the partition has a committed position |
| Simulation.OAuthOwnersNeverRepeat | kafka-go-app/cmd/consumer/main.go:240-248 | in every OAuth run a message below the committed position is handled again only by a process that lost the partition |
| Simulation.OAuthBoundedDrain | kafka-go-app/cmd/consumer/main.go:92-97 | after cancellation an OAuth consumer completes at most one more message and begins at most one more attempt, and its loop's steps, on-demand refreshes included, are bounded by a decreasing measure |
| Simulation.OAuthOnlySignalStops | kafka-go-app/cmd/consumer/main.go:178-184 | in every OAuth run the loop and the refresher end, and a backoff is cut short, only after the consumer's own signal; the loop's body is entered only before it |
| Simulation.OAuthDrainCompletes | kafka-go-app/cmd/consumer/main.go:178-184 | from every reachable state, also in the middle of an on-demand refresh, a cancelled OAuth consumer can run to its end by its own steps |
| RetryRefinement.InvocationRuns | kafka-go-app/cmd/consumer/main.go:213-219 | the timed retry engine, with the signal arriving at any time, is a run of the loop's retry steps that ends with the engine's result |
| PlainHandling.EngineIsPlain | kafka-go-app/cmd/consumer/main.go:213-219 | without a signal the engine's result, attempts and end are those of three attempts written out over the business function, half a second and a second apart |
| OAuthLoop.MessageRuns | kafka-go-app/cmd/consumer/main.go:193-248 | delay, retries, metrics, DLQ and commit of one message form a run of the step function with exactly two effects after the fetch |
| OAuthLoop.ConsumerProcess.HandleMessage | kafka-go-app/cmd/consumer/main.go:193-248 | the program's handling of a message is that run; without a signal its result and end are those of at most three calls of the business function, without a timeout it fails, and after the signal it is given up at once; exactly a failed message is given to the publisher, with its error and attempts; the two actions, handling and commit, name the message's own topic, partition and offset |
| OAuthLoop.ConsumerProcess.RunCallbacks | kafka-go-app/cmd/consumer/main.go:311-325 | the callbacks of one poll ask for exactly their assignments and unassignments in order, and readiness follows the last one |
| OAuthLoop.ConsumerProcess.RefreshOnDemand | kafka-go-app/cmd/consumer/main.go:250-262 | an on-demand refresh changes the cache and the consumer's token only, and nothing when it fails |
| OAuthLoop.ConsumerProcess.OnRefresh | kafka-go-app/cmd/consumer/main.go:136-150 | the refresh callback, wherever the consume loop is, is a run of the two push steps: consumer and DLQ producer each take the token or keep theirs, independently |
| OAuthLoop.ConsumerProcess.Dispatch | kafka-go-app/cmd/consumer/main.go:191-273 | each kind of event takes its branch: a message is fetched, handled and committed under its own topic, partition and offset, without a signal as the reference says; the publisher gets exactly the dead letters of the actions asked for; only the loss of all brokers ends the process, without the deferred calls |
| OAuthLoop.ConsumerProcess.Iterate | kafka-go-app/cmd/consumer/main.go:186-274 | one iteration takes exactly the message its poll returned, if any, gives the publisher exactly the dead letters of its actions, and ends the process exactly when all brokers are down |
| OAuthLoop.ConsumerProcess.Shutdown | kafka-go-app/cmd/consumer/main.go:116-133 | leaving the group comes before flushing and closing the publisher, whose queue is settled by the reports |
| OAuthLoop.ConsumerProcess.ConsumeLoop | kafka-go-app/cmd/consumer/main.go:178-275 | the whole loop over any inputs is a run of the step function; it takes exactly the messages of the inputs it consumed, in order, and every fetch, handling and commit names the topic, partition and offset of the message taken last; without a signal its actions and its end are those of the reference, input by input; the publisher received exactly the dead letters of its actions, in order, settled by the reports if it was closed; and the loop stops early only for a cancelled context or the loss of all brokers |
| OAuthLoop.HandlingTime | kafka-go-app/cmd/consumer/main.go:206-248 | if attempts respect their timeout, handling a message, back to the loop head, takes at most the delay, three timeouts, 1.5 s and the synchronous commit |
| OAuthLoop.DefaultHandlingTime | kafka-go-app/cmd/consumer/main.go:74-127 | with the defaults that is 91.5 s and the commit, below max.poll.interval.ms if the commit takes less than 208.5 s |
| OAuthLoop.DrainTime | kafka-go-app/cmd/consumer/main.go:206-248 | from the shutdown signal, or from receiving the message if that is later, to the loop head: at most the delay, one timeout and the commit |
| ScramLoop.LocalRunSimulates | kafka-cluster/cluster-without-oauth/kafka-go-app/cmd/consumer/main.go:147-227 | one OAuth process by itself, tokens erased, runs as one SCRAM process asking for the same effects |
| ScramLoop.MessageRuns | kafka-cluster/cluster-without-oauth/kafka-go-app/cmd/consumer/main.go:162-213 | a SCRAM consumer's message takes the path an OAuth consumer's message takes |
| ScramLoop.ScramProcess.HandleMessage | kafka-cluster/cluster-without-oauth/kafka-go-app/cmd/consumer/main.go:162-213 | the program's handling of a message is a run of the step function; without a signal its result and end are those of at most three calls of the business function, and after the signal it is given up at once; the two actions name the message's own topic, partition and offset |
| ScramLoop.ScramProcess.Dispatch | kafka-cluster/cluster-without-oauth/kafka-go-app/cmd/consumer/main.go:160-226 | each kind of event takes its branch, a message with its own coordinates and, without a signal, as the reference says; the publisher gets exactly the dead letters of the actions asked for |
| ScramLoop.ScramProcess.Poll | kafka-cluster/cluster-without-oauth/kafka-go-app/cmd/consumer/main.go:262-277 | the callbacks of one poll ask for exactly their assignments and unassignments in order, readiness follows the last one, and a signal that arrives meanwhile is noticed |
| ScramLoop.ScramProcess.Iterate | kafka-cluster/cluster-without-oauth/kafka-go-app/cmd/consumer/main.go:155-227 | one iteration takes exactly the message its poll returned, if any, and gives the publisher exactly the dead letters of its actions |
| ScramLoop.ScramProcess.ConsumeLoop | kafka-cluster/cluster-without-oauth/kafka-go-app/cmd/consumer/main.go:147-228 | the whole loop over any inputs is a run of the step function; it takes exactly the messages of the inputs it consumed, in order, and every fetch, handling and commit names the topic, partition and offset of the message taken last; without a signal its actions and its end are those of the reference, input by input; the publisher received exactly the dead letters of its actions, in order, settled by the reports if it was closed; and the loop stops early only for a cancelled context or the loss of all brokers |
| ProgramInGroup.StretchRuns | kafka-go-app/cmd/consumer/main.go:178-274 | any stretch of a program's run, performed by the broker, is a run of the group |
| ProgramInGroup.ProgramKeepsDelivery | kafka-go-app/cmd/consumer/main.go:178-248 | from any reachable state of the group, whatever the program does keeps at-least-once delivery and exact accounting |
| ProgramInGroup.ScramStretchRuns | kafka-cluster/cluster-without-oauth/kafka-go-app/cmd/consumer/main.go:147-227 | any stretch of a SCRAM program's run, performed by the broker, is a run of the group |
| ProgramInGroup.ScramProgramKeepsDelivery | kafka-cluster/cluster-without-oauth/kafka-go-app/cmd/consumer/main.go:147-213 | from any reachable state, whatever a SCRAM program does keeps at-least-once delivery and exact accounting |
| ProgramInGroup.PublisherMirrorsHistory | kafka-go-app/cmd/consumer/main.go:223-229 | while the broker performs what a program asks, the letters its publisher was given are, one by one and in order, about the messages (by topic, partition and offset) that the group's history says were given up, with their errors and attempts, and as many are refused |
| Producer.StepKeeps | kafka-go-app/cmd/producer/main.go:158-239 | every step of either goroutine keeps each number in one place and the totals balanced |
| Producer.ConservedAtTick | kafka-go-app/cmd/producer/main.go:158-239 | at every tick boundary of every interleaving the message number is errors plus successes plus outstanding reports, and each number from 1 to it is in exactly one place |
| Producer.EveryRunTold | kafka-go-app/cmd/producer/main.go:183-239 | from the events of a run alone: neither goroutine ends before the signal, a message was refused iff the library refused it, and its report, counted or on its way, is the one the library gave |
| Producer.ProducerProcess.OnTick | kafka-go-app/cmd/producer/main.go:166-203 | one tick numbers one message and queues it or counts an error |
| Producer.ProducerProcess.OnReport | kafka-go-app/cmd/producer/main.go:219-239 | one report is counted once, by its outcome |
| LoadStats.Stats.Record | keycloak-terraform/kc-fuzzer.py:50-59 | after any sample the figures are the counts of the samples so far, and success + auth_fail + error equals the status-code sum and the number of latencies |
| LoadStats.Stats.Report | keycloak-terraform/kc-fuzzer.py:61-73 | the printed total, counts and average; the total is 1 before the first sample |
| LoadStats.TotalAddsUp | keycloak-terraform/kc-fuzzer.py:64-68 | the total behind the average is the sum of the latencies |
| LoadStats.TotalBetween | keycloak-terraform/kc-fuzzer.py:64-68 | so the average lies between the smallest and the largest |
| LoadStats.FoldDescribes | keycloak-terraform/kc-fuzzer.py:50-59 | the conservation holds after any sequence of samples of any workers |
| LoadStats.InterleavingIrrelevant | keycloak-terraform/kc-fuzzer.py:116-136 | the order in which workers take the lock does not change the figures |
| LoadTest.FinalReportComplete | keycloak-terraform/kc-fuzzer.py:116-149 | for any number of workers in any interleaving the figures are the counts of the recorded samples, and a worker that has ended has recorded exactly the outcomes of its requests, in order |
| LoadTest.StopDrains | keycloak-terraform/kc-fuzzer.py:116-120 | after the stop event each worker records at most one more sample and takes at most four more steps |
| LoadTest.EndsOnlyStopped | keycloak-terraform/kc-fuzzer.py:116-120 | in every interleaving a worker has ended only if the stop event was set, and the flag is set exactly by that event |
| LoadTest.StopCompletes | keycloak-terraform/kc-fuzzer.py:116-120 | and it is never stuck: it can end within exactly the steps it has left |
| LoadTest.Worker | keycloak-terraform/kc-fuzzer.py:116-120 | the worker's loop is a run of the machine that ends it at the first check that finds the stop event; the statistics object holds what the machine recorded, one sample per request in order |
| LoadStats.ReportingLoop | keycloak-terraform/kc-fuzzer.py:140-142 | a positive interval gives ceil(duration/interval) reports whose sleeps add up to [duration, duration + interval); a zero interval is refused |

## Left out

- TokenDeadline.NeverLapsesExactly: takes the initial token as installed in the DLQ producer from the start. The code only
  writes it into that producer's configuration (kafka-go-app/internal/dlq/publisher.go:24-30), sets no token object on it
  before the first push, and its drain loop ignores refresh requests; what the client library makes of that is not modelled.
- Brokers, the group coordinator, librdkafka, the wire protocol, SASL and compression: only the interface named above.
- Gaps in a partition's offsets (transactions, compaction, retention): delivery is contiguous from the fetch position.
- HTTP, JSON and form encoding in the Keycloak client: each request is an arbitrary outcome with a duration and a lifetime.
- Rounding of the floating-point backoff product and overflow of 64-bit durations: the multiplier is an exact ratio and durations are unbounded.
- Lateness of timers: a timer fires at its instant; delays inside the refresh loop are parameters of `TokenDeadline`.
- Aliasing of the header slice that `append` may share with the consumed message: headers are values.
- Message payloads in the group machines: there a message is its topic, partition and offset; `Dlq` models contents.
- The refresh goroutine in `OAuthLoop`: the program there is the consume loop and the refresh callback; the goroutine's steps
  interleave in `OAuthConsumer` and `TokenDeadline`.
- Health server, readiness endpoints, logging, Prometheus plumbing, environment parsing, the echo applications: thin wrappers.
- `FORCE_FAIL_RATIO`: the business function is arbitrary.
- The producer's token handling and shutdown flush: its token cases equal the consumer's, and unflushed messages stay outstanding.
- The second `retry.go`, `health` and `logger` files of the SCRAM application: same content as the modelled ones.
- Terraform, Helm, Kustomize, Istio, KEDA and Grafana files and shell scripts: declarative input to programs outside the repository.
