# Rotation, quotas and stream translation of the chicco proxy

chicco sits between an OpenAI- or Anthropic-speaking client and several upstream providers.
For each request it picks a provider and one of that provider's models, fails over when the
upstream refuses, counts every served request against rolling quotas, and translates the
reply when the client speaks the other dialect. This project models that machinery in Dafny
and proves what it keeps.

Two cores are modelled in the program's own imperative form, each beside a functional
specification about which the main results are proved:

* **The rotator.** `EventLog.dfy` is the ring buffer of (time, tokens) events, a fixed array
  written in place; `Rotator.dfy` is the class with its maps of cooldowns, cursors, logs and
  counters and the methods that update them. Every method is proved equal to a function in
  `Rotation.dfy`, `Quota.dfy`, `Ring.dfy` or `Config.dfy`. `PickLaws.dfy`, `Weighted.dfy`,
  `Fairness.dfy`, `Cooling.dfy`, `Candidates.dfy`, `Registry.dfy`, `Blocked.dfy`,
  `Waits.dfy`, `Dispatch.dfy`, `Recall.dfy` and `Lifecycle.dfy` prove what those functions
  promise, in the configuration's own words where they can. `QuotaProtocol.dfy` makes requests
  interleave: each is picked under the lock, answered outside it, and only then recorded,
  while the configuration may be loaded again and the process restarted. It bounds what any
  window can hold in every such run, which `QuotaPromises.dfy` restates cap by cap;
  `QuotaTight.dfy` shows that both bounds are attained, and `Accounting.dfy` that no served
  request goes uncounted.
* **The stream translator.** `Translator.dfy` holds the two sinks and the block-tracking
  state as classes. `Pieces.dfy` says what a stream means once its chunks are forgotten:
  a sequence of pieces, cut into maximal runs, each of which is one content block.
  `StreamLaws.dfy` proves that both sinks produce exactly that, `Rechunk.dfy` and
  `Chunking.dfy` what re-cutting a stream cannot change. The live events are judged by
  `ReadAll` in `Sinks.dfy`, a strict client that rejects anything but a well-formed
  Anthropic stream, and `CallerLaws.dfy` says what a caller reads of the chunks themselves.

Around them stand the smaller parts that share their state: error classification, the
Retry-After header, CLI completions dressed up as streams, quota alerts, spend, aliases and
the rewriting of Anthropic turns.

Time is an integer number of nanoseconds and each operation reads the clock once. Random
choices are arbitrary values in range. An upstream reply is an arbitrary status, Retry-After
and pair of verdicts about the error text. Decoding and encoding JSON text are functions the
model takes as given, without saying what they do.

## Where the code and its comments part

* `pick` may fail while a candidate still has a routable model, because the cursor landed on
  a blocked one (`FreeModelStranded`). `PickSucceedsIff` gives the exact condition, and `FewPicksFail`
  bounds how often in a row it can happen.
* The comment above `classifyUpstream` says error text only ever softens a verdict.
  `BodySoftensIff` shows the one exception: quota wording on a 403 whose Retry-After is over
  an hour.
* A ring restored after it wrapped keeps its contents but not its eviction order.
  `RestartCountsIff` and `SavedSliceCountsIff` say exactly when it still counts every daily
  window correctly later, `WrappedRestartUndercounts` that it may not.
* `Reload` drops a cooldown without marking the state dirty, so the file keeps it and a
  restart brings it back (`ForgottenCooldownReturns`). `ReloadSurvivesRestartIff` says
  exactly when the forgetting lasts. Reloading the same configuration also forgets the
  cooldown of a model that has no quota (`ReloadForgetsModelCooldowns`), and its counters.
* The advertised Retry-After is the shortest remaining cooldown, or what the global key has
  left. With the logs as they are, no pick before it is over succeeds, wherever the cursors
  stand, exactly when no candidate model is routable an instant before its end
  (`WaitHoldsIff`); a model over its own quota that has not been examined yet counts as shut.
  Judged by cooldowns alone, for all cursors and all provider and model logs, that is when
  the global quota is still reached or every candidate is still shut (`WaitIsSoundIff`). A
  global cooldown by itself does not make the wait sound: a reload may have lifted the quota
  that set it (`StaleGlobalWait`). A request failing meanwhile may also cut a cooldown
  short, since the last write wins (`BlockOutlivesIff`).
* A bare token total is charged at the output rate as the safe direction.
  `BareTotalIsSafeIff` shows this is safe exactly when output is not the cheaper side.
* A stream without a decodable chunk is closed without having been opened (`ReadableIff`).
* A whole tool call leaves the index of an earlier delta standing, so a later delta of that
  index lands in its block (`WholeStaysWholeIff`).
* Relay and translator may account different totals from the same stream: only the relay
  reads Anthropic's token names, and lines that do not decode as chunks
  (`AnthropicUsageIsMissed`, `UndecodedIsMissed`, `AccountsAgreeIff`).
* A tool call whose arguments do not decode comes back from the client as the empty object
  (`ArgumentsSurviveIff`).

## Model

| member | source | states |
|---|---|---|
| Rings.PushRefines | internal/proxy/ratelimit.go:30-36 | one append keeps the ring equal, in eviction order, to the newest 10000 entries of an unbounded log |
| Rings.RingMeasures | internal/proxy/ratelimit.go:40-50 | at every cutoff the ring counts min(10000, true count) requests, and its token sum falls short of the true one by exactly what was lost |
| Rings.RemembersTenThousand | internal/proxy/ratelimit.go:16-36 | the ring holds exactly the newest ten thousand events ever recorded, or all of them |
| Rings.LoadMeasures | internal/proxy/ratelimit.go:138-162 | a saved slice loads back with every count, sum and oldest event over the last 25 hours unchanged, wrapped ring or not |
| Rings.RestoresTwentyFiveHours | internal/proxy/ratelimit.go:148-162 | a restart brings back exactly the saved events of the last twenty-five hours |
| Rings.SortedKeepsCounting | internal/proxy/ratelimit.go:30-36 | a ring whose eviction order is time order over the last day goes on counting every window a limit asks about as an unbounded log would |
| Rings.UnsortedUndercounts | internal/proxy/ratelimit.go:138-162 | any event of the last day standing before an older one in eviction order leads to an undercount in such a window |
| Rings.KeepsCountingIff | internal/proxy/ratelimit.go:138-162 | from an instant on, request counts over windows of at most a day stay right under every continuation exactly when no event of the last day is evicted before an older one |
| Recall.RestartHolds | internal/proxy/ratelimit.go:138-162 | a log that brings its last day back in eviction order holds after a restart what an unbounded log would of that day |
| Quotas.CheckExact | internal/proxy/ratelimit.go:93-135 | check reports a block if and only if some configured limit is reached in its own window |
| Quotas.TripsOnSixLimits | internal/proxy/ratelimit.go:93-135 | check trips exactly when the requests or tokens of the last minute, hour or day, in nanoseconds, meet that window's own cap |
| Quotas.CheckIsMaximum | internal/proxy/ratelimit.go:93-135 | the instant reported is the latest release among the reached limits, or zero |
| Quotas.CheckTight | internal/proxy/ratelimit.go:93-135 | with no new events some limit stays reached at every instant before the one reported: no over-blocking |
| Quotas.ReleaseExact | internal/proxy/ratelimit.go:93-135 | at its own release instant a limit is still reached exactly when the events tied for oldest do not cover the excess |
| Quotas.ExactlyFullIsReleased | internal/proxy/ratelimit.go:93-135 | a request limit met by exactly its cap is lifted at its own unblock instant |
| Quotas.RingVerdict | internal/proxy/ratelimit.go:16-65 | every request limit up to 10000 gets the unbounded log's verdict; larger ones never trip; token limits never trip wrongly |
| Quotas.TokenVerdictIff | internal/proxy/ratelimit.go:16-65 | token limits get the unbounded verdict for every cap exactly while no event of the window that spent tokens was lost |
| Quotas.DailyWithinRolling | internal/proxy/ratelimit.go:54-65 | since-midnight totals never exceed the rolling 24-hour totals the daily limits use |
| Quotas.MidnightBeginsTheDay | internal/proxy/ratelimit.go:54-65 | daily totals count from the last instant that begins a day |
| Quotas.CheckSurvivesLoad | internal/proxy/ratelimit.go:138-162 | after a restart check gives the same instant, for every quota and every later time |
| EventLogs.EventLog.Record | internal/proxy/ratelimit.go:30-36 | the in-place write at head is one append to the abstract ring |
| EventLogs.EventLog.Totals | internal/proxy/ratelimit.go:40-50 | the loop returns the requests and tokens strictly inside the window |
| EventLogs.EventLog.DailyTotals | internal/proxy/ratelimit.go:54-65 | counts since UTC midnight, and stays within the rolling day |
| EventLogs.EventLog.CheckQuota | internal/proxy/ratelimit.go:93-135 | the six-limit scan over the array returns the specified verdict |
| EventLogs.EventLog.ToSlice | internal/proxy/ratelimit.go:138-144 | yields the valid slots in storage order |
| EventLogs.EventLog.LoadSlice | internal/proxy/ratelimit.go:148-162 | resets head, drops what is over 25 hours old and appends the rest |
| Configs.CandidatesUsable | internal/proxy/dispatch.go:68-91 | every candidate is a configured provider with at least one model, and embeddings or tool requests never see a CLI provider |
| Configs.BackendModelsExact | internal/proxy/route.go:57-105 | a narrowed list holds exactly the non-empty models the backend list names on that provider |
| Configs.NarrowAllInConfigOrder | internal/proxy/route.go:57-105 | candidates of a virtual model keep configuration order and are exactly the providers its backend list names |
| Candidates.ModelCandidates | internal/proxy/route.go:57-105 | a request for a virtual model goes to the first entry of that id: its strategy, and exactly the usable providers its backends name a model on, in configuration order, each with those models in list order and its last entry's weight |
| Candidates.OtherCandidates | internal/proxy/route.go:57-75 | any other request goes to every usable provider as configured, in configuration order, under order |
| Configs.ValidateAliases | internal/proxy/validate.go:144-172 | accepts exactly the tables whose aliases have a known target and hide no model, and reports the first fault by name |
| Candidates.AcceptedIff | internal/proxy/validate.go:144-172 | a table is accepted exactly when every alias has a target that is a model and none is called like one |
| Candidates.FaultIs | internal/proxy/validate.go:144-172 | which fault each alias has, an empty target going before a shadowed model and that before an unknown target |
| Configs.AliasRoutesLikeTarget | internal/proxy/rotator.go:180-188 | with an accepted table resolution is idempotent and an alias gives its target's candidates and strategy |
| Configs.ModelKeyInjective | internal/proxy/rotator.go:82-86 | provider/model keys of plain names never collide |
| PickLaws.ExamineExact | internal/proxy/route.go:129-166 | one turn of the loop: exactly when it yields, where the cursor moves, and that only exhausted logs get cooled |
| PickLaws.PickSound | internal/proxy/route.go:116-167 | whatever pick returns is a candidate and one of its models, neither key cooling and no global, provider or model limit reached |
| Cooling.PickedHasRoom | internal/proxy/route.go:116-167 | whatever pick returns had room: no cooldown on its provider or model, and none of the six limits used up globally, on the provider or on the model |
| PickLaws.PickFromExact | internal/proxy/route.go:129-166 | pick returns the first candidate in strategy order that is open and whose cursor lands on a free model, judged on the state it was called in |
| PickLaws.PickSucceedsIff | internal/proxy/route.go:107-167 | pick succeeds exactly when no global limit is reached and some candidate is ready, whatever the strategy |
| PickLaws.InOrderPicksFirst | internal/proxy/route.go:211-233 | where no other strategy is named pick returns the first ready candidate of the list, at the model after its cursor |
| Cooling.PickCoolsExactly | internal/proxy/route.go:181-194 | what pick cools it cools exactly until the last window of a used-up limit lets its oldest event go: with nothing recorded some limit stays used up at every instant before |
| Cooling.FreeWhenItEnds | internal/proxy/route.go:181-194 | a key whose request limits were met by exactly their caps is free again the instant that cooldown ends |
| PickLaws.PlainKeysApart | internal/proxy/rotator.go:82-86 | candidates named once each and plainly have keys that never collide, which is all the exact results need |
| PickLaws.FreeModelStranded | internal/proxy/route.go:107-110 | pick fails on a concrete input although a model of the candidate is routable |
| PickLaws.IsOrderPermutes | internal/proxy/route.go:211-233 | under every strategy the order tried is a permutation of the candidates |
| PickLaws.TurnsExact | internal/proxy/route.go:133-166 | the k-th examination of an open provider yields the k-th model in cursor order if that is free, and nothing otherwise |
| PickLaws.CursorIsFair | internal/proxy/route.go:133-166 | within len(Models) examinations each position has exactly one turn and a free model is yielded on it |
| Fairness.FewPicksFail | internal/proxy/route.go:116-167 | with clock and logs unchanged, while a candidate's model is routable fewer picks in a row can fail than that candidate has models, whatever the strategy |
| Fairness.FailedPick | internal/proxy/route.go:129-166 | a failed pick moves an open candidate's cursor by exactly one, to a model that was not free, and changes nothing else for it |
| PickLaws.RoundRobinLeads | internal/proxy/route.go:211-233 | over n consecutive round-robin orders of n candidates each leads exactly once |
| PickLaws.LeadersTakeTurns | internal/proxy/route.go:211-233 | over consecutive round-robin picks the candidates lead one after the other from wherever the cursor stood |
| Weighted.SelectCovers | internal/proxy/route.go:238-258 | a draw selects an index exactly when it falls in that provider's stretch of the total; the default index never decides |
| Weighted.DrawsEqualWeight | internal/proxy/route.go:238-267 | the draws that select a provider number exactly its weight, or one when it has none |
| Weighted.DrawnOrderPermutes | internal/proxy/route.go:238-258 | whatever is drawn, every provider is placed exactly once |
| Weighted.FirstDrawLeads | internal/proxy/route.go:238-258 | the provider whose stretch covers the first draw leads, and the rest are ordered alike |
| Weighted.AnyoneCanLead | internal/proxy/route.go:258-267 | an unset weight counts as 1, so some draw lets any provider lead |
| QuotaBound.MoveKeepsRequests | internal/proxy/route.go:181-194 | admitting, recording or idling keeps the window plus what is in flight within cap + concurrency - 1 |
| QuotaProtocol.RequestQuotaHolds | internal/proxy/route.go:116-194 | in every interleaving with at most c requests between pick and record, reloads and restarts included, no window ever holds more than cap + c - 1 requests |
| QuotaProtocol.TokenQuotaHolds | internal/proxy/rotator.go:156-175 | likewise no window exceeds cap - 1 + c times the largest request, in tokens |
| QuotaPromises.RequestCapsHold | internal/proxy/route.go:116-194 | of every configured quota, over every interleaving: no minute, hour or day holds more than its own cap + c - 1 requests |
| QuotaPromises.TokenCapsHold | internal/proxy/route.go:116-194 | likewise in tokens, cap - 1 + c times the largest request, while the ring keeps them |
| QuotaPromises.BackendCapsHold | internal/proxy/rotator.go:110-124 | a backend's own quota holds for exactly the requests recorded under its provider's name, a slash and its model |
| QuotaPromises.HistoryGrows | internal/proxy/rotator.go:156-175 | what those bounds count: every request completed on that provider or model, in order, and nothing else |
| QuotaTight.BoundIsReached | internal/proxy/route.go:181-194 | for every cap and concurrency some run reaches cap + c - 1 |
| QuotaTight.TokenBoundIsReached | internal/proxy/route.go:181-194 | for every cap, request size and concurrency some run spends exactly cap - 1 + c times that size in one minute |
| Accounting.UsageIsConserved | internal/proxy/rotator.go:156-175 | over every interleaving, restarts included, until a reload the per-model counters sum to exactly what was recorded globally, ring overwrites and all |
| Accounting.QuotaCountersMatch | internal/proxy/rotator.go:156-175 | over every run, reloads and restarts included, the counters of each model with its own quota are what its log was ever given |
| Classify.EveryFailureCools | internal/proxy/classify.go:67-127 | every failure is skipped for a positive time, not less than its Retry-After unless key or request was at fault |
| Classify.CooldownsAre | internal/proxy/classify.go:67-127 | how long each failure is skipped, case by case: its Retry-After, a minute, five seconds or an hour |
| Classify.ReasonsAre | internal/proxy/classify.go:109-127 | exactly which replies count as a bad key, a limit or an error, and which cool one model only |
| Classify.BodySoftensIff | internal/proxy/classify.go:105-127 | error text makes a verdict no harsher, except for quota wording on a 403 with a Retry-After over an hour |
| RetryAfters.SecondsIsLeast | internal/proxy/proxy.go:351-358 | the header carries the least whole seconds, at least 1, that cover the wait |
| RetryAfters.RoundTripCovers | internal/proxy/classify.go:131-136 | parsing the header back gives a wait not shorter than the original and less than a second longer |
| RetryAfters.OnlyNumbersWait | internal/proxy/classify.go:131-136 | only a whole positive number of seconds that fits is a wait |
| Blocked.SoonestIsMinimum | internal/proxy/dispatch.go:200-235 | the wait reported is what the global key has left, else the minimum remaining cooldown over the keys reported, zero exactly when there are none |
| Blocked.NotesExact | internal/proxy/dispatch.go:212-229 | the keys reported are exactly the cooling candidates and the cooling models of the others |
| Blocked.NoPickBeforeSoonest | internal/proxy/dispatch.go:200-235 | once every candidate is shut no pick before that instant succeeds in any state holding the cooldowns that reach it |
| Blocked.PickStands | internal/proxy/route.go:116-194 | pick never removes or moves a live cooldown other than the global one |
| Blocked.RefusalHasAWait | internal/proxy/dispatch.go:200-235 | whenever pick fails on some candidates the wait reported at that instant is positive |
| Blocked.WaitIsSoundIff | internal/proxy/dispatch.go:200-235 | by cooldowns alone, for all cursors and all logs but the global one, the wait is sound exactly when at its end the global quota is reached or every candidate is shut |
| Blocked.WaitHoldsIff | internal/proxy/dispatch.go:200-235 | with the logs as they are the wait is sound for all cursors exactly when no candidate model is routable an instant before its end |
| Blocked.ShutToTheEnd | internal/proxy/dispatch.go:200-235 | with no global cooldown, candidates all shut now are shut until the wait ends, and conversely |
| Blocked.StaleGlobalWait | internal/proxy/reload.go:25-89 | a concrete reload after which an hour is advertised although a pick at instant 6 succeeds |
| Waits.NoPickWhileShut | internal/proxy/dispatch.go:200-235 | over every run of picks, records and failures that cut no cooldown short, no pick before the advertised instant succeeds once every candidate is shut |
| Waits.NoPickBeforeGlobal | internal/proxy/dispatch.go:204-207 | over every such run, whatever is recorded, no pick succeeds before the global cooldown ends, while the ring keeps the tokens a reached token limit counts |
| Waits.BlockOutlivesIff | internal/proxy/rotator.go:229-238 | a failure's overwrite keeps a cooldown until an instant exactly when it cools past it or the key was not cooling that long |
| Dispatching.FailureCools | internal/proxy/dispatch.go:97-115 | every failed attempt cools, for a positive time, a key the next pick consults |
| Dispatching.ReplyDoes | internal/proxy/dispatch.go:97-173 | what each reply does: a 2xx marks the provider healthy and cools nothing, a transport error cools it a minute, any other status cools provider or model as classed and marks a bad key |
| Dispatching.NeverTheSameTwice | internal/proxy/dispatch.go:136-173 | while an earlier cooldown stands a later attempt is for another model, and after a provider-wide failure another provider, other requests interleaving or not |
| Dispatching.CooldownLasts | internal/proxy/dispatch.go:136-173 | undisturbed, the cooldown an attempt set is still there, unchanged, at every later pick before it ends |
| Dispatching.DispatchNeverRepeats | internal/proxy/dispatch.go:127-192 | one dispatch makes at most one attempt per candidate and never repeats a model, or a provider after a provider-wide failure, before its cooldown has ended |
| Dispatching.DispatchOutcome | internal/proxy/dispatch.go:127-192 | a served request was routable when picked, and a wait is advertised only when nothing was attempted |
| Dispatching.DispatchPersists | internal/proxy/dispatch.go:136-192 | a dispatch gives up only after as many failed attempts as candidates, or on a pick that finds nothing |
| Dispatching.RefusedIsToldToWait | internal/proxy/dispatch.go:174-192 | a request refused without an attempt is given a positive wait, summed up at the instant of its pick |
| Lifecycle.RestartKeepsCooldowns | internal/proxy/state.go:34-114 | saving and restoring keeps every later cooldown answer and reason |
| Lifecycle.RestartKeepsQuotas | internal/proxy/state.go:34-114 | and every later quota verdict and since-midnight total, on wrapped rings too |
| Lifecycle.RestartKeepsRouting | internal/proxy/state.go:34-114 | the set of routable provider/model pairs is the same at every later instant |
| Lifecycle.SavesWhatLives | internal/proxy/state.go:71-114 | the image holds every log slot by slot, every counter, and exactly the cooldowns still running, with their reasons |
| Lifecycle.RestoresWhatLives | internal/proxy/state.go:34-66 | a restore brings back the logs that have a key, the counters, and exactly the saved cooldowns still running |
| Lifecycle.UnwrappedRestartKeepsCounting | internal/proxy/ratelimit.go:148-162 | a log that never wrapped keeps counting correctly after a restart |
| Lifecycle.RestartCountsIff | internal/proxy/ratelimit.go:138-162 | a log in time order, restored, counts daily windows right from then on exactly when head was at slot 0, or its newest event is over a day old, or every kept entry from head on is as new as that |
| Lifecycle.SavedSliceCountsIff | internal/proxy/ratelimit.go:138-162 | any log, even one out of order, counts daily windows right after a restart exactly when the saved slice is in time order over the last day |
| Lifecycle.WrappedRestartUndercounts | internal/proxy/ratelimit.go:138-162 | one request a nanosecond, one more than the log holds, and a restart undercounts |
| Lifecycle.RestartableIf | internal/proxy/ratelimit.go:138-162 | a log in time order comes back in order when head was at slot 0, it had no event of the last day, or nothing from head on is kept |
| Lifecycle.ReloadForgetsModelCooldowns | internal/proxy/reload.go:54-98 | reloading the same configuration changes routing only by freeing cooled models that have no quota |
| Lifecycle.RunsStayConsistent | internal/proxy/rotator.go:90-142 | over every run of picks, records, blocks, saves, reloads and restarts the logs are exactly the configured ones |
| Registry.NewRegisters | internal/proxy/rotator.go:90-142 | a fresh rotator has an empty log for every provider, every backend with a quota under provider/model, and the global key, no other, and the last such quota in force |
| Registry.ReloadRegisters | internal/proxy/reload.go:25-98 | a reload registers exactly the new configuration, keeps what still has a key unchanged and nothing else |
| Registry.ReloadRoutesAfresh | internal/proxy/reload.go:25-45 | after a reload every request has the candidates of a rotator freshly built from the new configuration |
| Registry.BackendQuotasExact | internal/proxy/rotator.go:110-124 | a model has its own quota exactly when some entry gives it one, and the last entry counts |
| Registry.RecordWrites | internal/proxy/rotator.go:156-175 | a served request is written to its provider's, its model's and the global log and no other, and counted on its model |
| Lifecycle.EveryProcessIsConsistent | internal/proxy/rotator.go:90-142 | and so it is over every run from construction on |
| Lifecycle.CleanMeansUnchanged | internal/proxy/state.go:71-114 | an operation that leaves the state clean left the saved image unchanged |
| Lifecycle.EveryProcessAgrees | internal/proxy/state.go:34-114 | over every run from construction on without a reload, a clean state and its file agree on every cooldown |
| Lifecycle.ForgottenCooldownReturns | internal/proxy/reload.go:80-90 | a cooldown dropped by a reload stays in the file and comes back with a restart |
| Lifecycle.ReloadSurvivesRestartIff | internal/proxy/reload.go:80-90 | from any state whose file agrees with it when clean, what a reload forgets stays forgotten over a save and a restart exactly when the state was dirty, the key is still configured, or it was not cooling |
| Rotators.Rotator.constructor | internal/proxy/rotator.go:90-142 | a fresh rotator owns an empty log for each provider, each backend with a quota and the global key |
| Rotators.Rotator.RecordUsage | internal/proxy/rotator.go:156-175 | appends to the provider, model and global logs that exist and counts the model, nothing else |
| Rotators.Rotator.Block | internal/proxy/rotator.go:229-238 | sets one cooldown and its reason, the last write winning |
| Rotators.Rotator.SetHealth | internal/proxy/rotator.go:146-150 | changes one provider's health and nothing else |
| Rotators.Rotator.TripQuota | internal/proxy/route.go:181-194 | cools the key until check's instant exactly when it is over quota |
| Rotators.Rotator.Shuffle | internal/proxy/route.go:211-233 | the swap loop yields a permutation of the candidates |
| Rotators.Rotator.WeightedOrder | internal/proxy/route.go:238-258 | the shrinking pool yields the order its draws stand for, a permutation of the candidates |
| Rotators.Rotator.Draw | internal/proxy/route.go:246-254 | the subtracting walk finds the provider whose stretch covers the draw |
| Rotators.Rotator.Order | internal/proxy/route.go:211-233 | returns an order of the strategy and moves only the round-robin cursor |
| Rotators.Rotator.ExamineNext | internal/proxy/route.go:129-166 | one turn of the loop does what the specification says to the whole state |
| Rotators.Rotator.Pick | internal/proxy/route.go:116-167 | the global check and the loop give the specified state and choice |
| Rotators.Rotator.Reload | internal/proxy/reload.go:25-98 | leaves exactly the keep-set of logs, cooldowns and counters, survivors unchanged and new logs empty |
| Rotators.Forget | internal/proxy/reload.go:92-98 | deletes every entry whose key is not kept and no other |
| Rotators.Rotator.Persist | internal/proxy/state.go:71-114 | hands out the snapshot when dirty, live cooldowns only, and clears the mark |
| Rotators.Rotator.Restore | internal/proxy/state.go:34-66 | loads logs that have a key, counters, and cooldowns that have not elapsed |
| Rotators.Rotator.Active | internal/proxy/rotator.go:204-224 | the active providers in configuration order |
| Rotators.Rotator.CandidatesFor | internal/proxy/dispatch.go:68-91 | alias, virtual model and CLI filtering give the specified candidates, each with a model |
| Rotators.Rotator.NarrowTo | internal/proxy/route.go:57-105 | narrowing keeps the named providers, each with its listed models and its weight |
| Rotators.Rotator.BlockedSummary | internal/proxy/dispatch.go:200-235 | the accumulation loop computes the shortest wait |
| Rotators.Rotator.ApplyReply | internal/proxy/dispatch.go:97-173 | one reply's cooldown and health, on the provider or on the one model |
| Rotators.Rotator.Dispatch | internal/proxy/dispatch.go:132-192 | the failover loop is a walk of attempts, each picked from the state the last one left |
| Rotators.Rotator.DispatchRequest | internal/proxy/dispatch.go:127-192 | without candidates it is refused untouched, else dispatched over exactly them |
| Pieces.RunsPartition | internal/proxy/anthropic_stream.go:141-206 | cutting a stream into runs loses, duplicates and reorders nothing |
| Pieces.BlocksAppend | internal/proxy/anthropic_stream.go:187-206 | one more piece extends the last block or opens a new one |
| CallerLaws.ChoiceSays | internal/proxy/anthropic_stream.go:159-183 | a choice says its text, the message's only when the delta has neither text nor tools, then its deltas, then its whole tool calls |
| CallerLaws.ChoicesConcat | internal/proxy/anthropic_stream.go:159-183 | every choice is said, in order |
| CallerLaws.BlocksAreNamed | internal/proxy/anthropic_stream.go:198-206 | every tool block goes by the id and name of a tool call of the stream |
| Rechunk.SplitsDoNotMatter | internal/proxy/anthropic_stream.go:187-206 | splitting or merging adjacent text, or adjacent arguments of one index, anywhere, never changes the blocks |
| Rechunk.NothingLost | internal/proxy/anthropic_stream.go:159-206 | the blocks hold every character of text and arguments once, in stream order |
| Rechunk.OneBlockPerToolIff | internal/proxy/anthropic_stream.go:198-206 | a tool index gets one block exactly when its deltas are contiguous |
| Rechunk.WholeStaysWholeIff | internal/proxy/anthropic_stream.go:171-178 | a whole tool call's block stays as sent exactly unless the next piece is a speaking delta of the index left standing |
| StreamLaws.BufferedMessage | internal/proxy/anthropic_json.go:26-67 | the buffering sink ends with the first id and model, the stream's blocks with decoded inputs, its last finish reason and its last usage |
| StreamLaws.StreamIsReadable | internal/proxy/anthropic_sse.go:38-102 | every stream with a chunk becomes a well-formed event sequence that a strict client reads as exactly those blocks, stop reason and output |
| StreamLaws.ReadableIff | internal/proxy/anthropic_stream.go:143-225 | the events are well formed exactly when there was a chunk |
| StreamLaws.SinksAgree | internal/proxy/anthropic_stream.go:86-99 | reading the live events block by block gives what the buffering sink holds, and both account the same total |
| CallerLaws.StopIsRead | internal/proxy/anthropic_stream.go:61-72 | both callers read tool_use, max_tokens or stop_sequence exactly when the last finish reason is tool_calls, length or content_filter, and end_turn otherwise |
| CallerLaws.UsageIsRead | internal/proxy/anthropic_stream.go:143-225 | both callers read the last usage reported, a bare total as output, and the first chunk's names, the id defaulted |
| CallerLaws.InputsAre | internal/proxy/anthropic_json.go:49-58 | a tool's input is its text decoded, the empty object for none and for text that does not decode |
| CallerLaws.OneThingSaid | internal/proxy/anthropic_sse.go:38-102 | the very events a stream of one text, delta or tool call comes out as |
| Chunking.RechunkingIsInvisible | internal/proxy/anthropic_stream.go:143-183 | with the same names, last finish reason and last usage, a caller reads the same message exactly when the same blocks come out |
| Chunking.SplittingIsInvisible | internal/proxy/anthropic_stream.go:143-206 | one delta of text or of a tool's arguments cut into two chunks anywhere in a stream changes nothing a caller sees |
| Translator.StreamState.TextPiece | internal/proxy/anthropic_stream.go:187-194 | text opens or continues a text block, and never reaches a missing one |
| Translator.StreamState.ToolPiece | internal/proxy/anthropic_stream.go:198-206 | arguments open or continue the block of their index |
| Translator.StreamState.WholePiece | internal/proxy/anthropic_stream.go:171-178 | a whole tool call gets a block of its own and leaves the index stale |
| Translator.StreamState.ApplyChoices | internal/proxy/anthropic_stream.go:159-183 | a chunk's choices are one feed of their pieces, the last finish reason kept |
| Translator.StreamState.ApplyChunk | internal/proxy/anthropic_stream.go:143-154 | the first chunk starts the message, the last usage stands, and what is open stays what the sink has open |
| Translator.StreamState.FinishStream | internal/proxy/anthropic_stream.go:210-225 | closes what is open and settles stop reason, output and total |
| Translator.SseSink.CloseBlock | internal/proxy/anthropic_sse.go:87-93 | stops the open index once, or does nothing |
| Translator.JsonSink.CloseBlock | internal/proxy/anthropic_json.go:44-62 | moves the accumulated block to the content, a tool's input decoded, and the empty object for none or undecodable text |
| Translator.TranslateStream | internal/proxy/anthropic_stream.go:86-99 | the chunk loop leaves the sink and the total that the specification gives |
| Translator.RespondStream | internal/proxy/anthropic_sse.go:108-116 | a streaming caller reads the same message a non-streaming one gets |
| Translator.RespondJson | internal/proxy/anthropic_json.go:72-91 | the non-streaming message is the stream's coalesced content, inputs decoded, under a defaulted id |
| CliSynth.SynthRoundTrip | internal/proxy/clisynth.go:40-95 | a CLI completion comes back as one text block equal to it, or none when empty, with a normal end and prompt + completion tokens on both routes |
| CliSynth.SplitSurvivesIff | internal/proxy/clisynth.go:89-95 | the token split survives exactly when completion tokens are positive or there was no prompt |
| CliSynth.ShapesAgree | internal/proxy/clisynth.go:16-77 | the streamed and the whole-object form translate alike |
| CliSynth.StreamUsage | internal/proxy/dispatch.go:276-305 | relaying keeps the last usage with a positive total |
| CliSynth.AccountsAgreeIff | internal/proxy/dispatch.go:276-359 | over any lines, decodable as chunks or not, relay and translator account the same total exactly when nothing else was counted after the last decodable usage, and that counts in OpenAI's terms or no line counts anything |
| CliSynth.AnthropicUsageIsMissed | internal/proxy/dispatch.go:340-353 | a usage object in Anthropic's terms is counted by the relay and not by the translator |
| CliSynth.UndecodedIsMissed | internal/proxy/anthropic_stream.go:105-115 | a usage on a line that does not decode as a chunk is counted by the relay and not by the translator |
| Alerts.WindowCovers | internal/proxy/alert.go:90-104 | window starts are aligned, monotone and cover the instant |
| Alerts.WindowsAre | internal/proxy/alert.go:90-104 | windows begin at the day, the hour and the minute; without a window there is one for good |
| Alerts.CrossesFrom | internal/proxy/alert.go:108-115 | usage crosses exactly from the threshold share of the quota on, when both are set |
| Alerts.OneAlertPerWindow | internal/proxy/alert.go:108-129 | over any run exactly one alert in each window with a crossing, none in the others |
| Alerts.Alerter.CheckUsage | internal/proxy/alert.go:108-129 | fires and remembers exactly as specified |
| Costs.SpendIsConserved | internal/proxy/cost.go:101-116 | both breakdowns sum to the exact spend, and requests are priced plus unpriced |
| Costs.RatesApply | internal/proxy/cost.go:80-98 | a prompt token costs the input rate, a completion token and a bare total the output rate, by the million |
| Costs.ChargedWhereDue | internal/proxy/cost.go:101-116 | each provider and model is charged exactly its own priced requests, and each unpriced one is counted on its model |
| Costs.RoundedTotalIsClose | internal/proxy/cost.go:130-161 | the rounded total differs from the sum of n rounded figures by at most (n+1)/20000 |
| Costs.PrintedTotalIsClose | internal/proxy/cost.go:130-161 | over any run the printed total is within 1/20000 of what was spent |
| Costs.BareTotalIsSafeIff | internal/proxy/cost.go:89-97 | pricing a bare total at the output rate never understates exactly when output is not cheaper than input |
| Costs.CostTracker.RecordCharge | internal/proxy/cost.go:101-116 | one request updates both breakdowns, or the unpriced count, and the request count |
| Costs.CostTracker.Summary | internal/proxy/cost.go:130-161 | every figure is rounded and the total is the rounded exact sum |
| Requests.AssistantMessage | internal/proxy/anthropic_request.go:160-183 | folds a turn's texts and tool calls in order |
| Requests.ReplyComesBack | internal/proxy/anthropic_request.go:160-183 | a translated reply sent back in the next turn reaches the upstream with all its text and every tool call under its id and name, the arguments decoded and encoded again |
| Requests.ArgumentsSurviveIff | internal/proxy/anthropic_json.go:44-62 | those arguments mean what was sent exactly when every argument text decodes |
| Requests.UserMessages | internal/proxy/anthropic_request.go:188-215 | the flushing loop emits the specified messages |
| Requests.ToolResultSplits | internal/proxy/anthropic_request.go:188-215 | a tool result cuts a user turn in two and nothing crosses it |
| Requests.OthersAreIgnored | internal/proxy/anthropic_request.go:188-215 | blocks a user turn cannot hold leave no trace in it |
| Requests.TextRunIsOneMessage | internal/proxy/anthropic_request.go:188-215 | consecutive texts become one user message joined by blank lines from the first non-empty one on, or none |

## Left out

- QuotaProtocol.TokenQuotaHolds: only for runs in which the ring has lost no tokens of the current window; `Quotas.TokenVerdictIff` shows that past this some token limit goes unnoticed.
- QuotaProtocol.RequestQuotaHolds: for limits up to the ring's 10000 entries, since `Quotas.RingVerdict` shows larger ones never trip; reloads are of the same configuration, and restarts are from an image just saved and bring the last day of every log back in eviction order, since `Lifecycle.WrappedRestartUndercounts` shows that others may undercount; the operator's manual test, which records without picking, is absent.
- Accounting.UsageIsConserved: until a reload, which drops the counters of models without a quota; `Accounting.QuotaCountersMatch` covers the counters it keeps.
- QuotaTight.TokenBoundIsReached: the run stays within the ring's memory when the requests it takes do.
- PickLaws.PickFromExact: for candidates no two of which share a key, as plainly and uniquely named ones never do; `PickLaws.PickSound` needs neither.
- Waits.NoPickWhileShut: for runs in which no failure cuts a cooldown short, since `block` overwrites; `Waits.BlockOutlivesIff` says when one does.
- Dispatching.DispatchNeverRepeats: for a dispatch no other request interferes with, since `block` overwrites and may shorten a cooldown; `Dispatching.NeverTheSameTwice` covers interleaving while the cooldown stands.
- Rechunk.OneBlockPerToolIff: for streams without whole tool calls, whose stale index `Rechunk.WholeStaysWholeIff` covers.
- CliSynth.AccountsAgreeIff: a line the translator decodes is taken to be readable to the relay too, which a count in Anthropic's names that is not a number would prevent.
- Requests.ArgumentsSurviveIff: takes of the JSON library that an empty text does not decode and that reading back what it wrote gives the value written.
- Alerts.OneAlertPerWindow: each provider keeps one window length throughout; the wiring that derives usage from the rotator's quotas and posts to a webhook is absent.
- Costs.SpendIsConserved: money is exact real arithmetic, so floating-point rounding is not modelled.
- Rotators.Rotator.Persist: the image is a value; the file, its atomic replacement, JSON, the disabled case without a path, and the window in which a write fails are absent.
- Rotators.Rotator.Shuffle: which swaps the library draws, and with what probability, is left open; weighted draws are counted, not given a distribution.
- Rotators.Rotator.Reload: the auth key, the alert and price settings and the health re-probe it triggers are absent.
- Overflow of 64-bit counters and durations, negative token counts and a clock that steps back are excluded; within one operation the clock is read once.
- HTTP handling, forwarding, subprocesses, probes, metrics, logging and the two dashboards are absent: input and output without a property to decide.
- YAML, the syntax of JSON and the framing of server-sent events are absent: streams begin at decoded chunks, the decoder of tool input is any function, and an error text is two verdicts.
- Options, tools, tool choice and system prompts of an Anthropic request, and the flattening of tool-result content to text, would only add easy members.
- The text of errors and of the blocked summary, the messages of the other validations, latency histograms, quota bars and rolling window displays are presentation.
- Inbound authentication is access control and not part of this model.
- White space around a key or a header is recognised in the one-byte range only.
