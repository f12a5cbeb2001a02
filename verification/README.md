# Airoute: a verified model of the data plane

Airoute is a gateway in front of language-model providers. This project models the decisions of its
data plane in Dafny and proves what they keep over whole runs: which channel a request goes to, what a
breaker lets through, what a request costs and who pays, what a conversation still says after it has
been translated, what a client reads of a stream, and what a cluster of gateways knows of its database.

| part | modules |
|---|---|
| choosing a channel | `Channels`, `LoadBalancer`, `SwrrMachine`, `SwrrFairness`, `SharedWeights`, `SharedUnfairness`, `Retrieval`, `CandidateRuns` |
| breakers, fallbacks, streams of one request | `CircuitBreaking`, `BreakerRuns`, `BreakerHistory`, `Dispatching`, `DispatcherObject`, `DispatchRuns`, `DispatchEnds`, `DispatchReplay`, `Trail` |
| usage ledger and its batching worker | `Ledger`, `RepositoryObject`, `BatchCharging`, `StoredRows`, `AsyncLogging`, `AsyncRuns` |
| prices and off-peak slots | `Billing`, `OffPeakTimes`, `SlotChecking` |
| translation and validation | `Messages`, `MessageParts`, `AnthropicTranslation`, `AnthropicRoundTrip`, `AnthropicValidation`, `AnthropicRepair`, `AnthropicVerdicts`, `Gemini`, `Validation`, `GeminiValidation`, `GeminiRepair`, `GeminiVerdicts`, `GeminiTranslation`, `GeminiLanding`, `GeminiSpoken` |
| event stream for Anthropic clients | `StreamEmitting`, `StreamRuns`, `StreamReasons` |
| calculator tool | `Calculator`, `CalculatorGrammar`, `CalculatorErrors`, `CalculatorRoundTrip` |
| rate limits | `SlidingWindow`, `WindowRuns`, `TokenBuckets`, `BucketRuns` |
| cluster reload | `ClusterReload` |
| vocabulary | `Common`, `Limits`, `Text` |

Code that changes things step by step is a class or a method with loops. Each is tied by its `ensures` to a
function of the old state, and the theorems are lemmas about that function. Goroutines that interleave
(the batching worker, the nodes of a cluster) are steps of a state machine, and the theorems hold for every
order of steps. `dafny verify dfyconfig.toml` checks the project.

What is outside enters as a parameter: upstream replies, the clock, the JSON codec, floating-point operations
of the calculator, hash values and the answers of Redis to a pin lookup.

What the proofs turned up, where code and expectation part:

* A late success closes an open breaker at once, and nothing else does within the cooldown; after twice the cooldown a half-open one lets every call through.
* In a batch, the whole cost of an unowned key goes to the last tenant seen for it; one at a time each tenant pays its own.
* A user message right before a tool's answer is lost on the way to Anthropic's form and back.
* A picture sent to Anthropic by its address is sent as if the address were the data of a JPEG, and comes back so.
* The Anthropic validator compares the role of the previous turn untrimmed: its output is a fixed point all the same, but its turns alternate exactly when no message that opens a run of two or more of one speaker has blanks around its role.
* Text deltas always name block 0 and argument deltas the latest block, so text after a tool start and interleaved arguments go astray.
* The last usage reported is billed exactly when it stands beside a choice and no text follows it.
* A trail too long to be shown whole is a bare ellipsis exactly when the serving channel is unnamed, and so are the hops back to one that does not fit.
* A node takes over the version it first reads without having loaded it, and a reload that failed is not repeated by any number of ticks.
* The calculator ignores text that does not go on with the expression, and reads `-2^2` as the square of -2.
* Two models can share one stored round-robin weight, because the key joins names with a colon, and then a tier's turns need not be fair: with some weights of the other tier they are not. Names without colons on one side rule that out.
* Slots are refused for clashing although never active together exactly when they meet on a weekday outside 1 to 7 alone.

## Model

| member | source | states |
|---|---|---|
| `LoadBalancer.SWRRSelector.Select` | internal/router/load_balancer.go:87-125 | One pass over a tier raises every weight, takes the first maximum and lowers it by the total; the winner comes first, the others keep their order. Ties the object to the functions the theorems below are about. |
| `LoadBalancer.SelectBySession` | internal/router/load_balancer.go:22-74 | The pinned channel first, by name, else the hashed one, whose name becomes the pin; the result is a permutation of the tier. |
| `LoadBalancer.AffinityPutsFirst` | internal/router/load_balancer.go:31-74 | In front stands the first channel of the pinned name, or the one at the hash modulo the tier; the others keep their order, and the name in front becomes the pin unless it was. |
| `LoadBalancer.SessionSticks` | internal/router/load_balancer.go:31-64 | With the pin a selection leaves behind, any later tier that still has a channel of that name puts it in front for the session, whatever else has changed. |
| `LoadBalancer.SWRRSelector.RaiseAll` | internal/router/load_balancer.go:93-113 | The pass over a tier: all weights raised, their total, and the first maximum. |
| `SwrrFairness.SelectIsStep` | internal/router/load_balancer.go:87-125 | On the stored weights of a tier with distinct names one selection is one step of the abstract weighted round-robin machine, and the winner is its first maximum. |
| `SwrrFairness.SelectFrame` | internal/router/load_balancer.go:97-118 | A selection writes no key but those of its own model and tier. |
| `SwrrMachine.Balanced` | internal/router/load_balancer.go:87-125 | After any number of selections from zero the running weights of a tier sum to 0. |
| `SwrrMachine.LagBound` | internal/router/load_balancer.go:97-118 | No running weight ever falls to minus the total weight or below. |
| `SwrrMachine.Accounting` | internal/router/load_balancer.go:97-118 | After k selections a weight is k times its share minus the total for each win: the invariant behind fairness. |
| `SwrrMachine.PrefixShare` | internal/router/load_balancer.go:87-125 | After k selections a channel has won strictly less than its share plus one turn. |
| `SwrrMachine.CycleCloses` | internal/router/load_balancer.go:87-125 | After exactly W selections, W the total weight, all running weights are 0 again. |
| `SwrrMachine.Periodic` | internal/router/load_balancer.go:87-125 | The running weights repeat with period W. |
| `SwrrMachine.WindowIsFair` | internal/router/load_balancer.go:87-125 | Every W consecutive steps, aligned or not, pick a channel exactly as often as its weight says. |
| `SwrrFairness.RunFollowsMachine` | internal/router/load_balancer.go:87-125 | Under any interleaving with selections that write none of its keys, the picks and stored weights of a tier are those of the abstract machine. |
| `SwrrFairness.FairInAnyWindow` | internal/router/load_balancer.go:87-125 | The fairness theorem on real runs: in any interleaving, in each window of W answers to a tier each channel stands first exactly as often as its weight says, once if it has none. |
| `SwrrFairness.AnswerIsPickedFirst` | internal/router/load_balancer.go:117-124 | What a selection returns: the picked channel in front and every other one of the tier behind it, in its order. |
| `SwrrFairness.HeadsArePicked` | internal/router/load_balancer.go:111-124 | The channels in front of the answers of a run are the ones picked. |
| `SwrrFairness.NeverAheadByATurn` | internal/router/load_balancer.go:87-125 | The lead bound n*W < k*w + W on the answers of every prefix of every such run. |
| `SwrrFairness.StoredWeightsSumToZero` | internal/router/load_balancer.go:97-118 | Under any interleaving of tiers and models, shared keys and duplicate names included, the whole weight table sums to 0. |
| `SwrrFairness.SharedKeyNeedsSharedName` | internal/router/load_balancer.go:104-104 | Two tiers of one model use a common key only if they share a channel name: when the interleaving condition holds. |
| `SharedWeights.KeysEqualIff` | internal/router/load_balancer.go:104-104 | Two pairs of model and channel have one stored weight if and only if they are equal or one model runs, at a colon, into the other. |
| `SharedWeights.ModelsCanShareAKey` | internal/router/load_balancer.go:104-104 | So models do share weights: wherever a colon stands in a model's name, the name may be cut there instead. |
| `SharedWeights.ApartIff` | internal/router/load_balancer.go:97-118 | The calls of a run leave a tier alone exactly when no other call has a channel sharing a key with it. |
| `SharedWeights.UnmistakableNamesAreApart` | internal/router/load_balancer.go:104-104 | With no colon in the models' names, or none in the channels', two calls share no key exactly when their models differ or they have no channel name in common. |
| `SharedWeights.FairAmongUnmistakableNames` | internal/router/load_balancer.go:87-125 | The fairness of every window, from conditions that can be read off the configuration. |
| `SharedWeights.SharedKeyIsUnfair` | internal/router/load_balancer.go:87-125 | The smallest run made unfair by a shared key: two selections of the other model let a channel win both turns of a window in which it should win one. `SharedUnfairness` has the general statement. |
| `SharedUnfairness.FairBesideIff` | internal/router/load_balancer.go:87-125 | A tier stays fair in every window of every run beside another tier, whatever weights that one has, if and only if the two share no key. |
| `SharedUnfairness.SharingCanBeUnfair` | internal/router/load_balancer.go:97-118 | For any two tiers that share a key it gives weights of the other tier and a run in which one channel wins a whole window. |
| `SharedWeights.TwoChannels` | internal/router/load_balancer.go:97-118 | One selection between two channels, worked out: the winner and every stored weight. |
| `Retrieval.CandidatesOrderTheMatched` | internal/router/dispatcher.go:124-185 | The candidates are a permutation of the matching channels in non-decreasing priority, whatever the selectors answer. |
| `Retrieval.MatchedExactly` | internal/router/dispatcher.go:128-141 | Exactly the channels that serve the model, and speak the protocol if one is asked for, each as often as configured. |
| `CandidateRuns.CandidatesOfOnePriority` | internal/router/dispatcher.go:142-185 | The candidates of each priority: in the first tier of a request with a session, where there is a choice, the session's order; in any other the answer of its own selection, made after those of the tiers before it. |
| `CandidateRuns.CandidatesAreCalls` | internal/router/dispatcher.go:162-185 | The stored weights a request leaves are those of its selections, so that the theorems on runs of selections hold of requests. |
| `Retrieval.SortIntsSorts` | internal/router/dispatcher.go:152-161 | The priorities are sorted and are the ones that occur. |
| `Channels.SupportsListedModelsBehindOwnPrefix` | internal/model/channel.go:99-138 | A channel serves a model if and only if the model is one it lists, exactly or by wildcard, behind some number of its own name prefixes. |
| `Channels.ListedIff` | internal/model/channel.go:102-128 | A model is listed by name, by a star, by a name mapping, or by what stands before one of its slashes and a star. |
| `Channels.SpokenIff` | internal/model/channel.go:40-84 | A protocol is spoken if none is configured, a star is, it is, another name of it is, or chat is and responses are asked for. |
| `CircuitBreaking.BreakerStatus.CanExecute` | internal/router/circuit_breaker.go:88-141 | The state machine of one channel asked for a grant: its next state and its answer in each of the three states. |
| `CircuitBreaking.BreakerStatus.RecordSuccess` | internal/router/circuit_breaker.go:92-151 | A recorded success in each state; an open breaker closes at once. |
| `CircuitBreaking.BreakerStatus.RecordFailure` | internal/router/circuit_breaker.go:96-155 | A recorded failure in each state; an open breaker restarts its cooldown. |
| `CircuitBreaking.CircuitBreaker.CanExecute` | internal/router/circuit_breaker.go:208-214 | The table of channels: only the named one changes, and a new one starts closed. |
| `CircuitBreaking.CircuitBreaker.RecordSuccess` | internal/router/circuit_breaker.go:217-229 | A success of an unknown channel changes nothing. |
| `CircuitBreaking.CircuitBreaker.RecordFailure` | internal/router/circuit_breaker.go:232-238 | A failure creates the channel if needed and changes no other. |
| `BreakerRuns.ClosedIffUnderThreshold` | internal/router/circuit_breaker.go:92-101 | In every run: closed exactly while the counter is under the threshold, and then the counter is the number of failures since the last success. |
| `BreakerRuns.OpenSinceLastFailure` | internal/router/circuit_breaker.go:61-72 | An open breaker has been open since its last recorded failure. |
| `BreakerRuns.GrantDuringCooldownIff` | internal/router/circuit_breaker.go:108-122 | Exactly when the breaker lets a call through within a cooldown of a trip: if and only if a success has been recorded since, and fewer failures after it than the threshold. |
| `BreakerRuns.CooldownState` | internal/router/circuit_breaker.go:108-122 | Through a cooldown the breaker is never half-open, and closed exactly under that condition. |
| `BreakerRuns.LateSuccessCloses` | internal/router/circuit_breaker.go:116-118 | A success recorded at any moment of the cooldown closes the breaker and lets the next call through. |
| `BreakerRuns.NoGrantDuringCooldown` | internal/router/circuit_breaker.go:108-122 | With no success recorded nothing is granted for a full cooldown; later failures only prolong it. |
| `BreakerRuns.ProbesAreBounded` | internal/router/circuit_breaker.go:129-141 | Within 2x cooldown of becoming half-open, grants exceed recorded successes by at most the probe limit. |
| `BreakerRuns.StayGrantsExactly` | internal/router/circuit_breaker.go:100-141 | With the settings of the constructor a half-open stay, however long, grants exactly its first call and every ask more than twice the cooldown after it began. |
| `BreakerRuns.OneProbePerStay` | internal/router/circuit_breaker.go:129-141 | So in its first 2x cooldown a stay grants exactly one call. |
| `BreakerRuns.StaleHalfOpenGrantsAll` | internal/router/circuit_breaker.go:129-141 | After 2x cooldown in half-open every later call is granted: the reset of the probe counter does not move the time of the change. |
| `BreakerRuns.OpenRecovers` | internal/router/circuit_breaker.go:108-151 | Past the cooldown a call is granted and its success closes the breaker. |
| `BreakerHistory.StateByHistory` | internal/router/circuit_breaker.go:45-165 | The whole state after any run, told from the history alone: closed exactly while fewer failures than the threshold follow the last success, else open since the last failure or half-open since the first ask a cooldown later, with every counter and time. |
| `BreakerHistory.GrantedByHistory` | internal/router/circuit_breaker.go:98-141 | When an ask is granted, told from the history alone. |
| `BreakerHistory.FailureNeverLeavesHalfOpen` | internal/router/circuit_breaker.go:92-155 | With any settings: after a failure the breaker is never half-open, and open since that failure unless it was closed. |
| `BreakerHistory.CanaryIsOutstanding` | internal/router/circuit_breaker.go:129-151 | With any settings, in the first 2x cooldown of a half-open stay: the probes counted as under way are the largest excess of grants over successes since any moment of the stay. |
| `BreakerHistory.GrantedWhileHalfOpenIff` | internal/router/circuit_breaker.go:129-141 | So a call is granted while half-open exactly as long as no such excess has reached the limit, or after twice the cooldown. |
| `BreakerHistory.LateAskStartsOver` | internal/router/circuit_breaker.go:129-141 | An ask that finds all probes out for more than twice the cooldown is granted and the count starts over with it. |
| `BreakerHistory.SuccessesAreCounted` | internal/router/circuit_breaker.go:142-151 | With any settings: a half-open breaker closes exactly with the success that makes as many in its stay as the settings ask. |
| `DispatcherObject.Dispatcher.GetChannels` | internal/router/dispatcher.go:124-185 | Grouping by priority, sorting and selecting, as loops over the shared weight map, give the candidates the theorems are about. |
| `DispatcherObject.Dispatcher.TryOne` | internal/router/dispatcher.go:330-381 | One candidate: breaker, provider, upstream call and record, with the effect of each on breakers, clock, calls and log. |
| `DispatcherObject.Dispatcher.TryAll` | internal/router/dispatcher.go:329-381 | The loop over the candidates of one model. |
| `DispatcherObject.Dispatcher.DispatchFrom` | internal/router/dispatcher.go:305-404 | A request with its fallbacks: the reply and the whole new state. |
| `DispatcherObject.Dispatcher.DispatchStream` | internal/router/dispatcher.go:407-558 | A streamed request: what the caller reads is the events of the serving channel, all stamped with one trail; under cancellation a prefix of them, and nothing if no channel served. |
| `DispatcherObject.Forward` | internal/router/dispatcher.go:501-526 | The forwarding goroutine passes on exactly the stamped events, or a prefix when the context ends. |
| `DispatcherObject.GroupByPriority` | internal/router/dispatcher.go:152-161 | The loop over matched channels yields the priorities in order of first sight and each tier in configured order. |
| `DispatcherObject.MatchChannels` | internal/router/dispatcher.go:125-136 | The loop that keeps the channels which speak the protocol and serve the model. |
| `DispatcherObject.Dispatcher.OrderTier` | internal/router/dispatcher.go:166-183 | One tier: a single channel as it is, the first tier of a session by affinity, any other by weight. |
| `DispatcherObject.Dispatcher.CallOne` | internal/router/dispatcher.go:343-381 | The upstream call of a granted candidate and its record. |
| `DispatchRuns.EveryRunIsGood` | internal/router/dispatcher.go:305-404 | Every run, for every configuration, breaker table, clock and upstream: its log is lawful, it tries one to four models pairwise different ignoring case, and it ends with one call served, whose trail is exactly the channels called, or with every offer exhausted. |
| `DispatchRuns.RunStopsAtFirstNonFailure` | internal/router/dispatcher.go:329-404 | Every call before the end of a run failed; the last one was served, cancelled or failed as the reply says. |
| `DispatchRuns.OutcomeMeans` | internal/router/dispatcher.go:478-535 | When a call serves, fails or is cancelled, told from the reply: a stream refused, late, empty or beginning with an error fails, and only the caller's context cancels. |
| `DispatchEnds.EveryRunEndsRight` | internal/router/dispatcher.go:219-404 | A request goes from each model to the fallback configured for it, and gives up only where there is none, where four models were tried or where the fallback was tried already; the error names the last model, how many channels it offered, the last fault and the reason. |
| `DispatchReplay.RunReplays` | internal/router/dispatcher.go:305-404 | Every run, from any state, is what its own log says: weights, breakers, clock readings and calls are those of the entries replayed one by one, and each offer, grant and record is the one the state and the upstream call for. |
| `DispatchReplay.RunFollowsBreakers` | internal/router/dispatcher.go:329-375 | Over a whole request a channel is granted exactly when its breaker grants after all that was asked and recorded of it before, each at its reading of the clock, and the table ends as those events leave it. |
| `DispatchReplay.RunFollowsWeights` | internal/router/dispatcher.go:305-404 | Over a whole request each model is offered what the weights left by the models before it yield, and the weights end as the selections of all models leave them. |
| `DispatchRuns.FirstHealthyStreamServes` | internal/router/dispatcher.go:467-531 | Safe fallback window: the stream that answers is the first whose first event came in time and without error, with one success recorded and every earlier call recorded as a failure. |
| `DispatchRuns.CallsAndRecordsPair` | internal/router/dispatcher.go:354-381 | Each upstream call is followed by exactly one breaker record of its channel, and each record belongs to a call. |
| `DispatchRuns.CallsOfOneModel` | internal/router/dispatcher.go:124-185 | The channels called for one model serve it, have a provider, are called at most as often as they are configured, in non-decreasing priority. |
| `DispatchRuns.LawfulAt` | internal/router/dispatcher.go:305-404 | The laws hold at every step of a run, not only at its end. |
| `Trail.FormatChannelTrail` | internal/router/dispatcher.go:269-302 | The backwards loop over the hops. |
| `Trail.HopsAreJoined` | internal/router/dispatcher.go:276-276 | Hops are joined by arrows, however they are grouped. |
| `Trail.TrailIsStoredWhole` | internal/router/dispatcher.go:269-302 | Whatever the names, a trail has at most 128 runes, so the clamp before storage is the identity on it. |
| `Trail.TrailKeepsMostRecentHops` | internal/router/dispatcher.go:269-302 | Whatever the earlier hops are called, with a named serving channel: the full chain if it fits, else an ellipsis and the longest run of most recent hops that fits, else an ellipsis and the last 127 runes of the serving name. |
| `Trail.BareEllipsisIff` | internal/router/dispatcher.go:284-301 | A chain too long to be shown whole leaves a bare ellipsis, which the code means to rule out, if and only if the serving channel is unnamed and so is every hop back to one whose name does not fit, or to the start. |
| `Trail.UnnamedChannelLeavesBareEllipsis` | internal/router/dispatcher.go:284-301 | The shortest such chains: an unnamed serving channel behind one whose name does not fit. |
| `RepositoryObject.Repository.RecordUsageLog` | internal/storage/repository.go:438-503 | One log: its row, the usage of its key, and the balance of the key's owner or of its tenant, the admin exemption included. |
| `RepositoryObject.Repository.BatchRecordUsageLogs` | internal/storage/repository.go:506-637 | A batch, through its four accumulating maps taken in any order, leaves the tables that the specification of batches names. |
| `RepositoryObject.Repository.InsertAll` | internal/storage/repository.go:545-584 | The loop that inserts rows and accumulates cost, tokens and tenant per key and cost per tenant. |
| `RepositoryObject.Repository.ChargeOwners` | internal/storage/repository.go:599-625 | Per-key totals charged to owners, or moved to the key's last tenant when no owner is found, in any map order. |
| `RepositoryObject.Repository.ChargeTenants` | internal/storage/repository.go:626-636 | Per-tenant totals charged, in any map order. |
| `BatchCharging.BatchRefinesSingles` | internal/storage/repository.go:506-637 | A batch of non-negative logs leaves exactly the keys, balances and rows of recording its logs one by one, whenever the tenants of each costly orphan log and of its key's last log reach the same users. |
| `BatchCharging.OneTenantGivesSameReach` | internal/storage/repository.go:578-580 | That holds whenever all logs of one key carry one tenant. |
| `BatchCharging.BatchEqualsSinglesIffNothingMoves` | internal/storage/repository.go:506-637 | For all logs of non-negative cost: a batch equals single recording if and only if, for every user, the cost of orphan logs it moves onto the user equals the cost it moves off. |
| `BatchCharging.GapIsWhatMoves` | internal/storage/repository.go:578-580 | What a batch takes from a user beyond single recording is what it moves onto the user less what it moves off. |
| `BatchCharging.BatchEqualsSinglesIff` | internal/storage/repository.go:506-637 | With one orphan key charged that means: its logs' tenants reach the users its last tenant reaches. |
| `BatchCharging.LastTenantPaysAll` | internal/storage/repository.go:578-580 | Two logs of an unowned key under two tenants: one by one each pays its own, in a batch the last tenant pays both. |
| `BatchCharging.BatchChargeIsGrouped` | internal/storage/repository.go:586-637 | What a batch charges a user is the sum over its logs of what each owes under the tenant it is billed to. |
| `BatchCharging.BalancesAfterSingles` | internal/storage/repository.go:476-503 | One log at a time: each balance falls by what the user owes for the logs, and nothing else of a user changes. |
| `BatchCharging.BalancesAfterBatch` | internal/storage/repository.go:586-637 | A batch: each balance falls by the batch's charge, which for costs of no less than zero its logs add up to. |
| `BatchCharging.UsageAfterSingles` | internal/storage/repository.go:476-479 | One log at a time: the usage of a key grows by the cost and tokens of those of its logs that charge something. |
| `BatchCharging.UsageAfterBatch` | internal/storage/repository.go:571-584 | In a batch it grows by the totals of all its logs, if one of the totals is positive. |
| `StoredRows.RowsReadBack` | internal/storage/repository.go:528-569 | Either way the rows follow those there were, in the order of the logs, and each reads back as its log. |
| `StoredRows.ReadsBack` | internal/storage/repository.go:438-474 | A stored log reads back as it was, but for a missing trace id, which is filled in, and a discount that is none. |
| `StoredRows.NormalizedFits` | internal/storage/repository.go:410-436 | Clamping cuts four names to what their columns hold, a prefix each, touches nothing else and is idempotent. |
| `AsyncLogging.AsyncLogger.Record` | internal/storage/async_logger.go:74-112 | A record gets its trace id and is queued, or dropped when the buffer is full. |
| `AsyncLogging.AsyncLogger.Flush` | internal/storage/async_logger.go:123-163 | A non-empty batch is written and emptied; the tables stay those of the batches written so far. |
| `AsyncLogging.AsyncLogger.OnReceive` | internal/storage/async_logger.go:123-163 | One received record joins the batch, which is flushed when full. |
| `AsyncLogging.AsyncLogger.OnStop` | internal/storage/async_logger.go:115-163 | On stop the queue is drained into the batch and flushed. |
| `AsyncRuns.EveryAcceptedRecordIsWrittenOnce` | internal/storage/async_logger.go:74-163 | In every interleaving of producers, ticks and stop, the records written, batched and queued are together the accepted ones in order; after the worker has left, all are written, once each. |
| `AsyncRuns.DroppedExactlyWhenFull` | internal/storage/async_logger.go:74-163 | At any moment of any run queue and batches are within their bounds, and a record offered then is dropped exactly when the queue is full, else accepted behind all others with a trace id. |
| `AsyncRuns.StopWritesAll` | internal/storage/async_logger.go:115-163 | From any moment at which the worker runs, a stop leads to its exit with every accepted record written. |
| `AsyncRuns.DrainIsARun` | internal/storage/async_logger.go:115-163 | The drain loop is a run of single drain steps. |
| `AsyncRuns.CutsAreInvisible` | internal/storage/async_logger.go:123-163 | However a stream of records is cut into batches, the tables end as if each had been charged alone. |
| `AsyncRuns.AsyncEqualsSynchronous` | internal/storage/async_logger.go:74-163 | After any complete run the tables are those of charging the accepted records one at a time in order. |
| `Billing.EvaluateCustom` | internal/billing/engine.go:77-134 | The loop over slots with its best-discount rule. |
| `Billing.IsOffPeak` | internal/billing/engine.go:312-345 | Mode dispatch, default discount and time context. |
| `Billing.BestIsLeast` | internal/billing/engine.go:93-128 | A custom price matches exactly when it is a discounted weekend or some slot is active, and its discount is the least of those, so slot order does not matter. |
| `Billing.OffPeakDiscountIsProper` | internal/billing/engine.go:55-159 | In every mode and at every time an off-peak result has a discount strictly between 0 and 1, and any other is the full price. |
| `OffPeakTimes.OffPeakIff` | internal/billing/engine.go:55-159 | Exactly when a price is discounted, mode by mode and field by field, and by what: the least discount that applies. |
| `OffPeakTimes.WindowIsCircular` | internal/billing/engine.go:63-67 | A window, past midnight or not, holds the minutes less than its length behind its start on a clock that starts over every day. |
| `OffPeakTimes.ClockIsRead` | internal/billing/engine.go:485-493 | A clock text of two digits, a colon and two digits is its hours and minutes. |
| `OffPeakTimes.NumbersAreRead` | internal/billing/engine.go:490-492 | Numbers in clock texts are read in tens, with a sign if there is one; anything else is zero. |
| `OffPeakTimes.NoClockIsMidnight` | internal/billing/engine.go:486-489 | A clock text without a colon, or with a second one, is midnight. |
| `OffPeakTimes.AmountsInNumbers` | internal/billing/engine.go:496-549 | Token cost and cache saving in millionths: tokens times rates. |
| `OffPeakTimes.HalvesRoundAway` | internal/billing/engine.go:553-555 | Rounding is to the nearest, halves away from zero, and symmetric. |
| `Billing.ExactCost` | internal/billing/engine.go:514-542 | Before rounding, cost plus total saving equals the list price: uncached tokens and cached tokens at the dearer of the two rates, completion and fixed price. |
| `Billing.CalculateCost` | internal/billing/engine.go:496-549 | Tokens are clamped first; after both roundings the identity holds within 1e-8 and each amount is within half a unit of its exact value. |
| `Billing.RoundingError` | internal/billing/engine.go:553-555 | Rounding to 8 places moves a value by at most half a unit of the last place. |
| `Billing.RoundingIsIdempotent` | internal/billing/engine.go:553-555 | Rounding a rounded value changes nothing. |
| `SlotChecking.ValidateSlotsOverlap` | internal/billing/engine.go:348-469 | The nested loops accept exactly the acceptable slot lists, and a rejection names the first faulty slot or clashing pair with its common days. |
| `SlotChecking.MeetingIsSharing` | internal/billing/engine.go:427-447 | The interval comparison finds an overlap if and only if some minute of the day lies in both windows, midnight passed or not. |
| `SlotChecking.AcceptedIff` | internal/billing/engine.go:348-469 | Several slots are accepted if and only if their times are proper, no two are ever active together for the evaluator, and no two meet on a day outside 1 to 7. |
| `SlotChecking.FaultMeans` | internal/billing/engine.go:365-373 | A slot is at fault exactly when a time lies outside the day or both are the same. |
| `SlotChecking.ClashIff` | internal/billing/engine.go:383-466 | Two slots clash for the check if and only if they are active together at some day and minute or meet on a day the calendar does not have. |
| `SlotChecking.RefusalIsDeservedIff` | internal/billing/engine.go:348-469 | Exactly when the check agrees with the evaluator on slots with proper times: two are active together, or none meet on an unreal day. |
| `SlotChecking.AcceptedIffNeverTwoActive` | internal/billing/engine.go:348-469 | With days from 1 to 7 only, slots are accepted if and only if their times are proper and no two are ever active together. |
| `SlotChecking.AcceptedNeverTwoActive` | internal/billing/engine.go:77-134 | One direction for all day numbers: of accepted slots no two are ever active together. |
| `SlotChecking.OverlapErrorIsReal` | internal/billing/engine.go:449-463 | An overlap error exhibits a minute at which both slots are active on every real day it names; they are active together exactly when it names one. |
| `SlotChecking.AcceptedSlotsDecideAlone` | internal/billing/engine.go:77-134 | With accepted slots the discount is that of the one active slot. |
| `SlotChecking.UnrealDayIsRefused` | internal/billing/engine.go:413-425 | Outside the days 1 to 7 the check is stricter: clashing slots for a day that never comes are refused though never active. |
| `Calculator.Parser.AddSub` | internal/api/mcp_handler.go:879-901 | The parser of sums advances the text in place and does what its specification says; it terminates on every text by (length, level). |
| `Calculator.Parser.MulDiv` | internal/api/mcp_handler.go:903-928 | The parser of products, division by zero included. |
| `Calculator.Parser.Power` | internal/api/mcp_handler.go:930-944 | The parser of powers, right-associative. |
| `Calculator.Parser.Primary` | internal/api/mcp_handler.go:946-978 | Parentheses, minus signs and numbers. |
| `Calculator.EvalSimpleMath` | internal/api/mcp_handler.go:869-877 | Spaces are stripped and an empty text is an error. |
| `CalculatorGrammar.AcceptedIff` | internal/api/mcp_handler.go:879-978 | Exactly what is read, on every text: a tree comes out with a rest left over if and only if the text begins with a text of that tree, by a grammar that allows redundant parentheses, and the rest does not go on with it. |
| `CalculatorGrammar.ReadToTheEndIff` | internal/api/mcp_handler.go:879-978 | A text is read to its end, as a tree, if and only if the grammar derives it from that tree. |
| `CalculatorGrammar.DerivedParses` | internal/api/mcp_handler.go:879-978 | The parser of each level reads any text of a tree at that level and goes on behind it with the tree's value or error. |
| `CalculatorGrammar.AddSubReads` | internal/api/mcp_handler.go:879-901 | Whatever the parser returns, the text it consumed is one of the tree and the rest does not go on with it. |
| `CalculatorGrammar.GrammarIsUnambiguous` | internal/api/mcp_handler.go:879-978 | No text is one of two trees. |
| `CalculatorGrammar.AnsweredIff` | internal/api/mcp_handler.go:869-877 | The calculator answers with a value if and only if some text of a tree with that value begins the input and what follows does not go on with it; that rest is not looked at. |
| `CalculatorErrors.ErrorsAreTrue` | internal/api/mcp_handler.go:869-982 | Every error tells the truth about the text: it is empty; it ends, or something that begins no operand stands, where an operand should be; a parenthesis is not closed behind its expression; a run of digits and dots is no number; or a divisor is zero. |
| `CalculatorErrors.BlanksDoNotMatter` | internal/api/mcp_handler.go:869-873 | A blank more or less anywhere makes no difference. |
| `CalculatorRoundTrip.ParsePrint` | internal/api/mcp_handler.go:879-978 | The parser of each level, on a tree printed for that level and followed by any text that cannot continue it, computes the tree's value or error and goes on from there. |
| `CalculatorRoundTrip.PrintDerives` | internal/api/mcp_handler.go:879-978 | The printing of a tree for a level is one of its texts at that level. |
| `CalculatorRoundTrip.PrintIsShortest` | internal/api/mcp_handler.go:879-978 | No text of a tree, redundant parentheses or not, is shorter than its printing. |
| `CalculatorRoundTrip.PrintedTreesEvaluate` | internal/api/mcp_handler.go:869-978 | Printing any tree with minimal parentheses and evaluating the text, however spaced, gives the tree's own value or error. |
| `CalculatorRoundTrip.PrintThenParse` | internal/api/mcp_handler.go:879-978 | Parsing a printed tree consumes the whole text and gives the same tree back. |
| `CalculatorRoundTrip.PrintIsInjective` | internal/api/mcp_handler.go:879-978 | No text is the printing of two trees. |
| `CalculatorGrammar.AddSubFactors` | internal/api/mcp_handler.go:879-978 | On every text, printed or not, evaluating while parsing equals building the tree and evaluating it; one fails without a tree, and only then. |
| `CalculatorRoundTrip.EveryTextHasAShortestForm` | internal/api/mcp_handler.go:879-978 | Every accepted text means a tree whose printing is no longer and parses to the same tree. |
| `CalculatorRoundTrip.MinusBindsTighterThanPower` | internal/api/mcp_handler.go:961-965 | A minus sign takes its primary before a power does. |
| `CalculatorRoundTrip.TrailingTextIsIgnored` | internal/api/mcp_handler.go:876-876 | Behind a printed tree, any text that does not go on with it is ignored, not rejected. |
| `AnthropicTranslation.ConvertOpenAIToAnthropic` | internal/provider/anthropic.go:86-228 | The conversion loop, pictures included: messages out and system parts joined. |
| `AnthropicTranslation.AppendResult` | internal/provider/anthropic.go:96-118 | A tool's answer joins an open user message or opens one. |
| `AnthropicTranslation.BuildTurn` | internal/provider/anthropic.go:121-147 | An assistant turn with tool calls becomes its text and one block per call. |
| `AnthropicTranslation.BuildContent` | internal/provider/anthropic.go:149-202 | A plain message becomes its text, or its blocks if it has a picture. |
| `AnthropicTranslation.ToCanonical` | internal/adapter/anthropic.go:24-133 | The loop back to canonical messages. |
| `AnthropicTranslation.ReceiveBlocks` | internal/adapter/anthropic.go:39-126 | One message's blocks: texts, pictures, calls and tool results. |
| `Messages.ParseMessageContent` | internal/model/multimodal.go:38-107 | Any content as parts, unknown shapes as JSON text. |
| `AnthropicRoundTrip.SurvivorsComeBack` | internal/adapter/anthropic.go:24-133 | For every conversation: what comes back is one system message and the canonical form of every surviving message in order, tool ids, names and arguments included. |
| `AnthropicRoundTrip.ComesBackWholeIff` | internal/provider/anthropic.go:96-118 | No message of a conversation is lost, with pictures or without, if and only if no user message stands right before a tool's answer, system messages aside. |
| `AnthropicRoundTrip.CanonicalConversationsComeBack` | internal/provider/anthropic.go:86-228 | A canonical conversation comes back message for message. |
| `AnthropicRoundTrip.AllSurviveExactlyWhen` | internal/provider/anthropic.go:96-118 | How many messages survive, and that all do exactly under that condition. |
| `AnthropicRoundTrip.PicturesComeBack` | internal/model/multimodal.go:110-119 | A picture sent as data of some type comes back as it was. |
| `AnthropicRoundTrip.AddressesComeBackAsData` | internal/model/multimodal.go:111-113 | A picture sent as an address comes back as if the address were the data of a JPEG. |
| `AnthropicRoundTrip.TurnsAreProper` | internal/provider/anthropic.go:120-202 | Every turn sent but an answer is a string or blocks Anthropic takes, field by field: text that is not empty, pictures as base64 data of some type, tool calls. |
| `AnthropicRoundTrip.AnswersSayTheirTexts` | internal/adapter/anthropic.go:88-107 | An answer received with a list for its content says the texts of its items. |
| `MessageParts.PartsAreRead` | internal/model/multimodal.go:37-108 | Parts come out as they were written, a string as one part; items of other types are skipped. |
| `AnthropicValidation.ValidateAnthropic` | internal/validator/anthropic.go:14-197 | The validator on the request object: the whole new request and the verdict with its warnings in order. |
| `AnthropicValidation.ArrangeTurns` | internal/validator/anthropic.go:111-156 | The loop over turns: roles, comparison with the previous turn, merging. |
| `AnthropicRepair.AcceptedUnchangedIffTidy` | internal/validator/anthropic.go:14-197 | Strict validation accepts exactly the tidy requests and changes nothing in them; nor does lenient validation. |
| `AnthropicVerdicts.StrictErrorIff` | internal/validator/anthropic.go:14-197 | The strict level reports an error if and only if it is the first fault of the request, in the order in which faults are looked for; it warns of nothing and leaves the request as it is. |
| `AnthropicVerdicts.LenientVerdict` | internal/validator/anthropic.go:14-197 | The lenient level fails only without a message that is not the system's; else its warnings are, in order, exactly the repairs made, and limits and roles are what the repairs leave. |
| `AnthropicVerdicts.SystemTextIsJoined` | internal/validator/anthropic.go:52-80 | The system text is the request's own and those of its system messages, a blank line between any two, leading empty ones left out. |
| `AnthropicRepair.RepairIsAFixedPoint` | internal/validator/anthropic.go:14-197 | Whenever validation succeeds, at either level, both levels accept the result without warning or change. No condition on blanks around roles is needed. |
| `AnthropicRepair.LenientKeepsWhatIsSaid` | internal/validator/anthropic.go:52-156 | Lenient repair succeeds exactly when some message is not a system one; then everything the others say, line breaks aside, keeps its order under the repaired roles, behind a greeting if the user does not begin. |
| `AnthropicRepair.MergeKeepsItems` | internal/validator/anthropic.go:223-246 | Merging two contents, texts or blocks, says the one and then the other. |
| `AnthropicRepair.SystemTextIsKept` | internal/validator/anthropic.go:52-77 | Misplaced system texts follow the request's own in order. |
| `AnthropicRepair.AcceptedTurnsAlternateIff` | internal/validator/anthropic.go:137-152 | The turns of an accepted request alternate between speakers if and only if no message with blanks around its role is followed by one of the same speaker. |
| `AnthropicRepair.LenientTurnsAlternateIff` | internal/validator/anthropic.go:111-156 | Read off the request itself: the turns that lenient repair leaves alternate if and only if, among the messages it keeps, each one that opens a run of two or more of one speaker has no blanks around its role. |
| `AnthropicRepair.BlankRolePassesStrict` | internal/validator/anthropic.go:138-138 | Two user turns in a row, the first written with a blank, pass strict validation. |
| `GeminiValidation.ValidateGemini` | internal/validator/gemini.go:13-211 | The validator on the request object: the whole new request and the verdict with its warnings in order. |
| `GeminiValidation.MoveSystem` | internal/validator/gemini.go:35-71 | System contents go to the system instruction, or are an error. |
| `GeminiValidation.ArrangeTurns` | internal/validator/gemini.go:73-152 | The loop over turns: roles, empty parts, merging. |
| `GeminiValidation.TuneConfig` | internal/validator/gemini.go:154-208 | Sampling limits are checked or clamped. |
| `GeminiRepair.RepairIsAFixedPoint` | internal/validator/gemini.go:13-211 | Whenever validation succeeds, at either level, both levels accept the result without warning or change. |
| `GeminiRepair.StrictAcceptsIff` | internal/validator/gemini.go:13-211 | Strict validation accepts exactly the requests that are tidy up to case and blanks of their roles, and then only rewrites the roles. |
| `GeminiVerdicts.StrictErrorIff` | internal/validator/gemini.go:13-211 | The strict level reports an error if and only if it is the first fault of the request; it warns of nothing. |
| `GeminiVerdicts.LenientVerdict` | internal/validator/gemini.go:13-211 | The lenient level fails only without a content that is not the system's; else parts, limits and warnings are, in order, exactly what the repairs leave. |
| `GeminiRepair.LenientKeepsEveryPart` | internal/validator/gemini.go:36-152 | Lenient repair succeeds exactly when some content is not a system one; then the parts keep their order under the repaired roles, an empty content giving one blank, and the system parts follow the instruction's own. |
| `GeminiTranslation.ConvertOpenAIToGemini` | internal/provider/gemini.go:129-305 | The translator as loops over messages, calls and parts. |
| `GeminiTranslation.MergeTurns` | internal/provider/gemini.go:273-281 | Consecutive turns of one role are put together. |
| `GeminiLanding.ConvertedTurnsAreTidy` | internal/provider/gemini.go:129-281 | The turns sent alternate between user and model, none is empty, and every part stands in the order of the messages under its message's role. |
| `GeminiSpoken.EverythingIsSaid` | internal/provider/gemini.go:74-281 | What is sent is, part by part and in order, what the messages say, each under its voice: texts, pictures, sounds, calls and answers with their names and decoded fields; system texts go into the instruction and the sampling limits along. |
| `GeminiLanding.StrictAcceptsConvertedIff` | internal/provider/gemini.go:129-305 | Strict validation accepts a translated request, unchanged, if and only if some message yields a turn and the sampling limits hold. |
| `GeminiLanding.AnswersFindTheirCalls` | internal/provider/gemini.go:133-176 | An unnamed tool answer is sent under the name of the function its id was called with. |
| `GeminiLanding.CallsAreSentInOrder` | internal/provider/gemini.go:179-199 | The request makes exactly the conversation's tool calls, in order, all in the model's turns. |
| `StreamEmitting.Emitter.Stream` | internal/api/inbound_anthropic.go:335-482 | The streaming loop over arrivals: events, end of stream, or the client leaving. |
| `StreamEmitting.Emitter.HandleChunk` | internal/api/inbound_anthropic.go:392-480 | One chunk: finish reason, text, tool calls and usage, in that order. |
| `StreamEmitting.Emitter.OpenTool` | internal/api/inbound_anthropic.go:432-456 | A tool start stops the open block, whichever it is, and starts the next. |
| `StreamRuns.RunTells` | internal/api/inbound_anthropic.go:335-482 | Every run writes the head, the operations in order and the ending, and one audit record exactly once it has ended. |
| `StreamRuns.ClosedStreamsFollowTheProtocol` | internal/api/inbound_anthropic.go:335-482 | On every stream that closes, blocks are numbered 0, 1, 2, with one open at most, each stopped once before the next; every delta targets the open block of its kind if and only if no text follows a tool start and no arguments precede the first. |
| `StreamRuns.CutStreamsFollowTheProtocol` | internal/api/inbound_anthropic.go:337-384 | A stream cut by an error or by the client keeps the protocol up to there and leaves its last block open. |
| `StreamRuns.TextIsPassedOn` | internal/api/inbound_anthropic.go:410-428 | However the stream ends, the client's text is the contents of the upstream's chunks so far. |
| `StreamRuns.NothingIsLost` | internal/api/inbound_anthropic.go:410-470 | Texts and, for each block, the argument fragments sent after that many tool starts, are passed on whole. |
| `StreamRuns.FragmentsReachTheirToolIff` | internal/api/inbound_anthropic.go:458-470 | What a block holds is the text of the fragments sent between its start and the next, and these are a tool's own fragments, all and only they, if and only if none of the tool's was sent elsewhere and none of another tool's there. |
| `StreamRuns.ArgumentsReachTheirTool` | internal/api/inbound_anthropic.go:458-470 | So then the block holds the joined text of the tool's fragments. |
| `StreamRuns.LateFragmentsGoAstray` | internal/api/inbound_anthropic.go:458-470 | Wherever a fragment arrives in a stream, the client files it under the block started last, whatever tool index it carries. |
| `StreamRuns.OutputOnlyGrows` | internal/api/inbound_anthropic.go:335-482 | What has been written is never taken back, and a run is the composition of its parts. |
| `StreamRuns.AuditBillsLastUsage` | internal/api/inbound_anthropic.go:273-300 | The audit record bills the last usage reported beside a choice, plus one token for each later chunk with text. |
| `StreamRuns.LastReportIsBilledIff` | internal/api/inbound_anthropic.go:273-300 | On a whole run: the one audit record bills the last usage reported, whatever it says, if and only if the report stands beside a choice, in no end mark, and no chunk with text follows. |
| `StreamRuns.UsageWithoutChoiceIsNotBilled` | internal/api/inbound_anthropic.go:392-480 | So a report in a chunk without choices is not what the run bills. |
| `StreamReasons.ClosingSays` | internal/api/inbound_anthropic.go:340-362 | What a closed stream ends with: the last cue in the upstream's events as the reason, "end_turn" without one, and the tokens of its record. |
| `StreamReasons.RecordNamesTheFirst` | internal/api/inbound_anthropic.go:273-300 | The one record of a stream names the first channel any event named and the first id any chunk carried. |
| `ClusterReload.NodeStepIsGood` | internal/controlplane/sync.go:33-71 | Each step of a node keeps the invariant of versions, locks and loaded parts. |
| `ClusterReload.ReloadSteps` | internal/controlplane/sync.go:33-71 | What a reload that holds the lock may do next: read a part or fail before each of the three parts, then apply it, and leave at the end. |
| `ClusterReload.RunCountsWrites` | internal/distributed/redis.go:107-125 | Writes and versions are counted one by one. |
| `ClusterReload.LocalVersionIsLoaded` | internal/distributed/redis.go:128-176 | In every interleaving, a node that has completed a reload begun after its first version read holds every write published up to the version it answers for, unless its subscriber's reload failed since. |
| `ClusterReload.LoadedNeverGoesBack` | internal/controlplane/sync.go:33-71 | Between any two moments of any run no loaded part of any node loses a write. |
| `ClusterReload.TickAndMessageHeal` | internal/distributed/redis.go:145-172 | After a tick that sees a newer version, or any broadcast, as soon as the subscriber is back in its loop, none of its own reloads having failed, every part holds every write published by then, lost broadcasts notwithstanding. |
| `ClusterReload.QuietClusterIsUpToDate` | internal/distributed/redis.go:128-176 | Once all writes are published and the node has seen the last version, it holds the whole database. |
| `ClusterReload.SubscriberCanReturn` | internal/controlplane/sync.go:33-71 | The lock never blocks for good: the node's own reload steps lead a waiting subscriber back to its loop. |
| `ClusterReload.TicksChangeNothing` | internal/distributed/redis.go:163-172 | A node whose version is the last one is left unchanged by every run in which it only ticks and no version is raised. |
| `ClusterReload.FirstReadSkipsAWrite` | internal/distributed/redis.go:140-143 | Whatever the node held before, a write published just before its first version read is in none of its parts, while its version says otherwise, however many ticks follow. |
| `ClusterReload.FailedReloadIsNotRetried` | internal/distributed/redis.go:163-172 | A subscriber's reload that fails, at whichever read, is not made up for by any number of ticks, whatever other nodes and the database do: the version was already taken. |
| `SlidingWindow.Limiter.RunScript` | internal/distributed/redis.go:179-198 | The script on the sorted set, the serial counter and both expiries. |
| `SlidingWindow.Limiter.AllowRPM` | internal/distributed/redis.go:201-221 | Unmetered keys and an inactive Redis pass; a failing one lets the call through with an error. |
| `WindowRuns.ScriptCountsTheLastMinute` | internal/distributed/redis.go:179-198 | After any run the script admits a call if and only if fewer calls than its limit were admitted in the 60 seconds up to it. |
| `WindowRuns.NoWindowExceedsTheLimit` | internal/distributed/redis.go:179-198 | Over every run on a clock that never goes back, every window (t - 60000, t] holds at most the limit. |
| `TokenBuckets.TokenBucket.Allow` | internal/middleware/ratelimit.go:22-41 | Refill, cap and take one token. |
| `TokenBuckets.RateLimiter.GetBucket` | internal/middleware/ratelimit.go:53-76 | A key's bucket is made once and kept; a limit changed later is not looked at. |
| `BucketRuns.LevelIsLeastBudget` | internal/middleware/ratelimit.go:22-41 | The level of a bucket is the least, over all starting calls, of a full bucket plus what flowed in since minus what was granted since. |
| `BucketRuns.GrantedIffWithinEveryBudget` | internal/middleware/ratelimit.go:22-41 | A call is granted if and only if from every earlier call on one more grant still fits. |
| `BucketRuns.NoStretchExceedsTheRate` | internal/middleware/ratelimit.go:22-41 | Over any stretch [s, t] of any run at most capacity + rate * (t - s) calls are granted. |
| `BucketRuns.AtMostTheLimitPerMinute` | internal/middleware/ratelimit.go:22-41 | So in any stretch of whole minutes a bucket grants at most its limit for each of them and once more, and its first call always. |
| `BucketRuns.SpacedCallsAreGranted` | internal/middleware/ratelimit.go:22-41 | A caller that leaves a token's worth of time between calls is never refused. |
| `LoadBalancer.Others` | internal/router/load_balancer.go:117-124 | The chosen channel in front, every other one behind it in its order. |
| `CircuitBreaking.BreakerStatus.constructor` | internal/router/circuit_breaker.go:184-205 | A new channel starts closed with all counters at zero. |
| `CircuitBreaking.BreakerStatus.Become` | internal/router/circuit_breaker.go:51-81 | The three transitions and the counters each resets. |
| `CircuitBreaking.CircuitBreaker.constructor` | internal/router/circuit_breaker.go:168-182 | Thresholds that are not positive get their defaults. |
| `CircuitBreaking.CircuitBreaker.GetOrCreate` | internal/router/circuit_breaker.go:184-205 | The named status, made on first use, and no other change. |
| `BreakerRuns.RefusalIsRecent` | internal/router/circuit_breaker.go:108-141 | A refusal means the state changed at most 2x cooldown ago, and less than one cooldown ago if open. |
| `BreakerRuns.TableFollowsRuns` | internal/router/circuit_breaker.go:208-238 | Each table operation is the run event of the named channel and of no other, so the run theorems hold per channel. |
| `DispatcherObject.Dispatcher.Ask` | internal/router/dispatcher.go:332-337 | The breaker is asked once per candidate, at the clock's next reading. |
| `DispatcherObject.Dispatcher.Record` | internal/router/dispatcher.go:357-375 | One success or failure is recorded for the named channel. |
| `DispatcherObject.Dispatcher.Call` | internal/router/dispatcher.go:343-354 | One upstream call, its outcome decided by the upstream; for a stream by its first event. |
| `DispatcherObject.Dispatcher.OfferChannels` | internal/router/dispatcher.go:306-310 | Channels that speak chat, else any that serve the model. |
| `Limits.ClampRunes` | internal/storage/repository.go:412-421 | A prefix of at most the limit, the whole text when it fits. |
| `RepositoryObject.Repository.UpdateKey` | internal/storage/repository.go:477-479 | Adds cost and tokens to an existing key row. |
| `RepositoryObject.Repository.UpdateOwner` | internal/storage/repository.go:481-483 | Debits the key's owner unless an admin, and counts the rows affected. |
| `RepositoryObject.Repository.OwnerIsAdmin` | internal/storage/repository.go:486-488 | Whether the key has an owner and that is an admin. |
| `RepositoryObject.Repository.UpdateTenant` | internal/storage/repository.go:491-492 | Debits every user, admins aside, whose name or mail is the tenant. |
| `RepositoryObject.Repository.Insert` | internal/storage/repository.go:466-475 | Appends one row. |
| `RepositoryObject.Repository.UpdateKeys` | internal/storage/repository.go:586-598 | Per-key totals added to the key rows, in any map order. |
| `RepositoryObject.Repository.ChargeKeyTotal` | internal/storage/repository.go:604-623 | One key's total: to its owner, to nobody if that is an admin, else onto the tenant's bill. |
| `AsyncLogging.AsyncLogger.constructor` | internal/storage/async_logger.go:36-69 | Sizes that are not positive get their defaults. |
| `AsyncLogging.AsyncLogger.OnTick` | internal/storage/async_logger.go:147-148 | A tick flushes. |
| `AsyncLogging.AsyncLogger.Stop` | internal/storage/async_logger.go:115-121 | Stopping is a request to the worker. |
| `Billing.ContainsDay` | internal/billing/engine.go:96-101 | The search for the weekday. |
| `SlotChecking.GetIntervals` | internal/billing/engine.go:365-379 | Times out of range or equal are errors; a window past midnight is two intervals. |
| `SlotChecking.FindCommonDays` | internal/billing/engine.go:413-422 | The common days in the order of the first list. |
| `SlotChecking.FindOverlap` | internal/billing/engine.go:427-447 | Whether some two intervals meet. |
| `SlotChecking.CheckSlot` | internal/billing/engine.go:383-466 | One slot against all later ones: the first fault in order, or none. |
| `SlotChecking.CheckPair` | internal/billing/engine.go:406-466 | Two slots clash if and only if they share a day and a minute. |
| `AnthropicTranslation.BuildMedia` | internal/provider/anthropic.go:164-202 | The blocks of a message with pictures, in order. |
| `AnthropicValidation.MoveSystem` | internal/validator/anthropic.go:52-89 | System messages go to the system text, or are an error. |
| `AnthropicValidation.FinishRequest` | internal/validator/anthropic.go:91-194 | First turn, alternation and sampling limits. |
| `AnthropicValidation.TuneSampling` | internal/validator/anthropic.go:158-194 | Temperature and nucleus limits are checked or clamped. |
| `AnthropicRepair.DiffersIff` | internal/validator/anthropic.go:138-138 | Two turns differ for the validator exactly when their speakers differ or the first has blanks around its role. |
| `GeminiValidation.RepairTurn` | internal/validator/gemini.go:75-126 | One turn's role and parts: repaired, or the strict level's first objection. |
| `GeminiRepair.TidyIsFixed` | internal/validator/gemini.go:13-211 | A tidy request is left alone at every level. |
| `GeminiTranslation.CollectNames` | internal/provider/gemini.go:133-140 | The name of each call id, the last one winning. |
| `GeminiTranslation.CollectTurns` | internal/provider/gemini.go:142-251 | The loop over messages: system texts, tool answers, calls and plain turns. |
| `GeminiTranslation.CollectTexts` | internal/provider/gemini.go:143-151 | The non-empty texts of a system message. |
| `GeminiTranslation.CollectCalls` | internal/provider/gemini.go:179-199 | Text and calls of an assistant turn. |
| `GeminiTranslation.CollectParts` | internal/provider/gemini.go:201-251 | Texts, pictures and sound of a plain message; no turn if nothing is left. |
| `StreamEmitting.Emitter.HandleEvent` | internal/api/inbound_anthropic.go:369-392 | Serving channel, error, end mark or chunk. |
| `StreamEmitting.Emitter.HandleToolCalls` | internal/api/inbound_anthropic.go:430-472 | Each tool call of a chunk: its start, then its arguments. |
| `StreamEmitting.Emitter.SendArguments` | internal/api/inbound_anthropic.go:458-470 | Arguments go to the current block. |
| `StreamEmitting.Emitter.SendText` | internal/api/inbound_anthropic.go:410-428 | Text goes to block 0 and counts one token. |
| `StreamEmitting.Emitter.NoteFinish` | internal/api/inbound_anthropic.go:402-408 | The finish reasons that change the stop reason. |
| `StreamEmitting.Emitter.Finish` | internal/api/inbound_anthropic.go:341-367 | The open block is stopped, then come the message delta and the message stop. |
| `StreamEmitting.Emitter.RecordStreamEnd` | internal/api/inbound_anthropic.go:273-300 | The audit record with the tokens counted so far. |
| `TokenBuckets.TokenBucket.constructor` | internal/middleware/ratelimit.go:66-73 | A new bucket is full. |

## Left out

- `web/`, gin handlers, admin pages, sign-in, payments, probing: input and output around the modelled logic.
- HTTP, SSE line reading, SQL text, JSON text and the Redis client: foreign; only their effect is modelled.
- Floating point: prices, tokens and rates are exact reals. Rounding is stated for the rounding to 8 places alone.
- 64-bit overflow of round-robin weights, counters and clock texts with huge numbers.
- Changes to channels, fallbacks and keys while a request is being dispatched: a run sees one configuration.
- `GetUpstreamModel` and the choice among wildcard prices: they depend on Go's map order. The chosen price is a parameter.
- `SwrrFairness.FairInAnyWindow`: asks that other selections write none of the tier's keys; `SharedWeights` says exactly when they do, and `SharedUnfairness` that fairness is then lost for some weights.
- The breaker's handler objects are folded into the state they stand for, and `GetStatus` only reads it.
- Lower-casing of model names in the dispatcher is an abstract function; roles and modes use the part of Unicode's mapping that can yield ASCII words.
- Embedding, rerank and plain HTTP dispatch: the same loop with other payloads.
- Usage log records are values. The source normalizes them in place through references, which only the caller that made them sees.
- Failed SQL statements and rolled-back transactions; roles that are NULL in the database.
- `BatchCharging.BatchEqualsSinglesIff`: for one orphan key charged; `BatchCharging.BatchEqualsSinglesIffNothingMoves` is the condition for any number.
- `AsyncLogging.AsyncLogger.Record`: the local path. With Redis active the source offers the record to a Redis Stream first; a record offered after the worker has left stays queued.
- `AsyncLogging.AsyncLogger.constructor`: the flush interval is left to the steps, which may tick at any time, and the Redis worker is not started.
- `AsyncLogging.AsyncLogger.Stop`: asks the worker to stop; waiting for it is the run going on until the worker has left.
- `AsyncRuns.AsyncEqualsSynchronous`: one tenant per key and non-negative amounts, as in the batch theorem it rests on.
- Merged parts and blocks are new sequences: appending to a slice that shares its array with another is not modelled.
- `AnthropicTranslation.ConvertOpenAIToAnthropic`: messages and system text; tool definitions, token limit, sampling parameters and model name are carried along unchanged by the source.
- `GeminiTranslation.ConvertOpenAIToGemini`: turns, system instruction and sampling limits; tool declarations and the fixed safety settings are not modelled, nor are request fields that no validator looks at.
- `AnthropicRoundTrip.CanonicalConversationsComeBack`: texts and calls; a picture comes back as typed parts, which is another shape than the one sent, and `AnthropicRoundTrip.SurvivorsComeBack` says which.
- `internal/adapter/gemini.go` drops tool arguments, so no round trip is meant there. `ValidateOpenAI` leaves blank function names and reaches no fixed point.
- `SlotChecking.AcceptedIffNeverTwoActive`: for days 1 to 7, the days the evaluator knows; `SlotChecking.AcceptedIff` is the condition for all.
- Slots are what the JSON decoder yields, their clock texts read as minutes once instead of at every look; an undecodable list counts as malformed for the check and as empty for the evaluation.
- The name of a time zone: the local weekday and minute are given.
- `ClusterReload` is on values, not on an object: its steps belong to several goroutines. Prices are reloaded outside the lock too and are not among the parts.
- `ClusterReload.LocalVersionIsLoaded`: speaks of a node from its first completed reload after the first version read, and `ClusterReload.FirstReadSkipsAWrite` shows why.
- `WindowRuns.NoWindowExceedsTheLimit`: callers and Redis share one clock, in milliseconds, that does not go back.
- `SlidingWindow.Limiter.RunScript`: keys expire by that same clock.
- `Billing.CalculateCost`: the price is a parameter, its lookup depending on map order where wildcards compete.
- `StreamEmitting.Emitter.RecordStreamEnd`: channel, upstream id and tokens; the record's cost is computed from them by `Billing`, and key, tenant and session are the request's own.
- `TokenBuckets.RateLimiter.GetBucket`: the two looks under the read and the write lock are one step.
- The choice of a rate limiter per request, the in-flight quota and token counters in Redis.
- Time to first token, metrics and log lines.
