# Recording admission of the migration gateway, modelled in Dafny

The gateway forwards HTTP requests either to the original service (the fallback) or, for
admitted requests, to a recorder. Admission is a small distributed protocol over one Redis
writer: gateways compete for a bounded number of participation slots, each request reserves
one in-flight slot per scope, an API counter caps recorded cases, and recorders register
their address under a lease. This project models that protocol, the local state machines
around it, and the dispatch and header code that carries its tickets, and proves properties
of all their runs. `dafny verify dfyconfig.toml` checks everything.

## How the model is laid out

| files | part of the system |
|---|---|
| `TokenCell`, `Reservation` | one Redis key holding an owner token with an expiry; reservations and registrations as objects on it |
| `GatewayLease`, `LeaseSafety`, `LeaseTiming`, `ShrinkTight`, `LeaseDrive`, `LeaseExact`, `LeaseTask`, `LeaseTrace` | the participation lease: transition system, invariants, time bounds, what a cycle does from its replies alone, the background task as imperative code, and their agreement |
| `Discovery` | single flight and cooldown of recorder discovery |
| `Admission`, `QuotaBound`, `QuotaTight`, `ReservationHistory`, `AcquireTask`, `AcquireTrace`, `AttemptSpacing` | `acquire` as a transition system of many providers, its counters, its slot histories, its imperative form, and their agreement |
| `Participation` | lease and admission on one clock |
| `Text`, `Policy`, `PolicyStore` | rule compilation, lookup, and the snapshot cache |
| `Recording` | policy snapshots, lookup and admission together: `try_acquire_request` in every interleaving |
| `Headers`, `Ticket`, `Proxy`, `Replay`, `Dispatch` | header preparation, tickets, body replay, and `Gateway::handle` |
| `Common` | wrappers and two finite-set facts |

Asynchronous code appears twice. Its transition system cuts it at the awaits: `Resume`
follows the source from one reply to the next command, and any await may be abandoned.
Its imperative form (`LeaseTask.Task`, `AcquireTask.Provider`) takes the outcome of every await
from a script and is proved to end in the same state, with the same commands sent, as
the transition system driven by that script. Conversely, for every cycle and every attempt of
every run, the replies, failures and cancellation that the run delivered to it, in order, are
a script that drives the imperative form through the same commands to the same end. Safety is
proved over runs of the transition system, and the two directions tie those runs to the code
as written.

What a cycle, an attempt, a rule, a header list or a contact means is in addition stated
without the code's own steps: from the replies alone (`LeaseExact`, `AcquireTask.OutcomeIsExact`),
from the text of a path or a field (`Policy`, `Headers`, `Ticket`), or from the request itself
(`Dispatch.ContactIsExact`). Those lemmas are named `...IsExact` and are if-and-only-if statements.

Assumptions built into the step relations:

- Redis commands and scripts are atomic, and all go to one writer.
- There is one monotone clock; local and Redis durations agree. Times are nanoseconds.
- Boot tokens and request tokens are fresh. A gateway's identity stands for its boot token, and
  a request token is a number that stands for its hexadecimal text.
- Only the modelled code writes slot, in-flight and count keys, apart from the operator, who
  may change the limit, the policy and the recorder address and reset the counters at any time.
- An unanswered command takes effect at most once, and either before the same client's next
  command or never. Each client has an explicit queue: `stale` commands of abandoned awaits
  run in order ahead of `current`, and any of them may be lost.
- Route templates: literal segments match themselves, `:x` matches one nonempty segment, a
  terminal `*x` matches any remainder after its slash, and the first declared match wins.

What the proofs show beyond the documented promises:

- A healthy owner keeps its eligibility without a gap if and only if
  `2 min(L, refresh) + min(refresh/4, 200 ms) + 1.2 refresh < ttl`, where `L` bounds one
  refresh, which its timeout also cuts, and 200 ms is the budget of one policy load. Validation
  guarantees it for `L` below 0.775 of the interval, and below 0.9 of it less 100 ms. The default
  30 s and 10 s never lapse exactly while refreshes stay below 8.9 s, so a refresh that uses its
  whole timeout can let a lease lapse (`LeaseTiming.DefaultTimeoutsCanLapse`). The upper end of
  the jitter counts as reachable, because durations are rounded to whole nanoseconds.
- The shrink window `lease_ttl + refresh_interval` is attained to the nanosecond
  (`ShrinkTight.ShrinkIsTight`).
- The quota can overshoot by exactly the number of providers minus one: the bound is attained
  for every limit and every number of providers.
- "Tickets <= increments <= reservations since the last reset" survives a reset if and only
  if no attempt stands between its confirmed SET and its returned ticket at that moment; two
  runs from the initial state show either half broken.
- An upgrade request stays an upgrade request after preparation if and only if its Connection
  field does not nominate `connection` itself.
- A recorder address that is a URI but not a plain http origin is refused only when the ticket
  is built, hence after the counter has been read; an exhausted quota hides it
  (`AcquireTask.ExhaustedQuotaHidesAddress`).
- A lost request ticket is inert forever. Gateway and registration tokens may be offered again
  by their owner, so for them the same statement holds up to the next offer.

## Model

| member | source | states |
|---|---|---|
| `TokenCell.Isolation` | src/redis_admission.rs:24-36 | a command carrying another token never changes a live owner's entry and never makes a token owner of the key |
| `TokenCell.OwnAccountIsExact` | src/redis_admission.rs:168-199 | at every instant the key is owned by a token exactly when that holder's private account (its own accepted SET, renewals and completion) says so; other holders' commands are irrelevant |
| `TokenCell.DeadlineGoneMeansCompleted` | src/redis_admission.rs:166-170 | a holder without any recorded deadline has itself completed with answer true after its SET |
| `TokenCell.Succession` | src/redis_admission.rs:168-220 | between two accepted SETs the earlier holder either completed with answer true or its last accepted extension had run out |
| `TokenCell.LostStaysLost` | src/redis_admission.rs:172-180 | a key once lost is never owned again without a new offer of the token; renewal never recreates it |
| `TokenCell.StaleCommandsAreInert` | src/redis_admission.rs:166-199 | owns, renew and complete of a token that lost its key answer false and leave the key unchanged until the token is offered again |
| `TokenCell.LostTicketIsInertForever` | src/redis_admission.rs:168-220 | with one-shot tokens, once a ticket does not own its slot every later command with it answers false and changes nothing |
| `Reservation.RedisKey.Run` | src/redis_admission.rs:201-220 | one atomic command: the new cell and the decoded boolean, with the key's history extended by that command |
| `Reservation.Ticket.Complete` | src/redis_admission.rs:166-170 | true exactly when the ticket still holds by its own account; afterwards it does not hold; false leaves the slot unchanged, true empties it |
| `Reservation.Ticket.Renew` | src/redis_admission.rs:172-180 | true exactly when the ticket holds, before and after; only then is the expiry moved, never for a missing or replaced token |
| `Reservation.Ticket.OwnsSlot` | src/redis_admission.rs:182-199 | true exactly when the ticket holds by its own account; the slot is unchanged |
| `Reservation.RecorderRegistration.Register` | src/redis_admission/registration.rs:52-54 | accepted exactly when no recorder is live at the key, so publishing never replaces one |
| `Reservation.RecorderRegistration.Renew` | src/redis_admission/registration.rs:56-58 | true exactly when this recorder is registered by its own account, before and after; otherwise the key is unchanged |
| `Reservation.RecorderRegistration.Unregister` | src/redis_admission/registration.rs:60-62 | true exactly when this recorder was registered; afterwards it is not; another recorder's entry is unchanged |
| `LeaseSafety.OthersCommand` | src/redis_admission/lease.rs:183-218 | no slot command of another gateway, awaited or abandoned, disturbs a gateway's standing |
| `LeaseSafety.InvStep` | src/redis_admission/lease.rs:107-220 | every step of every gateway, of Redis, of the operator and of the clock keeps the lease invariant |
| `LeaseSafety.InvAlways` | src/redis_admission/lease.rs:107-220 | the lease invariant holds in every state of every run, with timeouts, lost replies and late commands |
| `LeaseSafety.EligibleIsBacked` | src/redis_admission/lease.rs:165-220 | a locally eligible gateway's token is live in Redis under its owned slot, with an expiry no earlier than the local deadline |
| `LeaseSafety.TokenOnlyWhereOwned` | src/redis_admission/lease.rs:135-218 | a boot token is live in at most one slot key, the one `owned_slot` names; while it is None nothing is published and no command that could recreate the token is on the wire |
| `LeaseSafety.EligibleBelow` | src/redis_admission/lease.rs:183-220 | eligible gateways own pairwise distinct slots, so those confined below n are at most n |
| `LeaseSafety.AtMostPeakEligible` | src/redis_admission/lease.rs:180-220 | if the published limit never exceeded n, at every instant at most n gateways are eligible, for any number of gateways |
| `LeaseTiming.ShrinkConverges` | src/redis_admission/lease.rs:120-205 | once the limit has stayed at or below m for `lease_ttl + refresh_interval`, at most m gateways are eligible, given that refreshes respect their timeout |
| `ShrinkTight.ShrinkIsTight` | src/redis_admission/lease.rs:120-205 | that window cannot be shortened by a nanosecond: for every configuration and m, a run with refreshes in time in which m + 1 gateways are still eligible just before it ends |
| `LeaseTiming.SuccessPublishes` | src/redis_admission/lease.rs:195-218 | a cycle of at most L that renews or wins a slot ends with a deadline at least ttl - L away |
| `LeaseTiming.ContinuousEligibility` | src/redis_admission/lease.rs:120-163 | an owner inside the limit whose refreshes take at most L never lapses while the longest gap between publications (two refreshes cut by their timeout, a policy load cut by a quarter interval and by its 200 ms budget, 1.2 intervals of sleep) is below the TTL |
| `LeaseTiming.ValidatedTolerance` | src/redis_admission/lease.rs:40-51 | under every validated configuration eligibility never lapses while L is below 0.775 of the interval, or below 0.9 of it less half the load budget |
| `LeaseTiming.LapsingRun` | src/redis_admission/lease.rs:119-151 | for every validated configuration and L with a gap of at least the TTL, a concrete run of an undisturbed owner whose refreshes, loads and sleeps all respect their timers, in which eligibility lapses |
| `LeaseTiming.ContinuityIsExact` | src/redis_admission/lease.rs:40-163 | eligibility of healthy owners never lapses if and only if that gap is below the TTL, for every validated configuration and every L |
| `LeaseTiming.DefaultTimeoutsCanLapse` | src/redis_admission/lease.rs:32-38 | the default 30 s / 10 s configuration never lapses if and only if L is below 8.9 s; refreshes that use their whole timeout can lapse |
| `LeaseTiming.PausesAreBounded` | src/redis_admission/lease.rs:143-150 | in every run a standby waits at least a full interval before it competes again, a participant at least 0.8 of it, and neither pause exceeds 1.2 intervals |
| `LeaseDrive.ScanIsPermutation` | src/redis_admission/lease.rs:206-207 | from any start the circular scan order holds every slot of 0..limit exactly once |
| `LeaseExact.ElectionTurn` | src/redis_admission/lease.rs:207-218 | one turn of an election: a slot is kept on success and on every unknown outcome, given up only on an NX refusal, and published, from the moment its SET was sent, only on success |
| `LeaseExact.CycleIsExact` | src/redis_admission/lease.rs:172-220 | slot, deadline and commands of every cycle of the transition system, as a function of its replies and random start alone: what is kept on errors, renewed, released, competed for, and in which order |
| `LeaseExact.RenewalDecides` | src/redis_admission/lease.rs:195-204 | a slot inside the limit is renewed, published from the time of sending, kept on an unknown answer and given up on a refusal |
| `LeaseExact.NoLimitRetires` | src/redis_admission/lease.rs:183-194 | under a missing or zero limit a slot is released, nothing else is sent and nobody is eligible |
| `LeaseExact.ReleasedCompetes` | src/redis_admission/lease.rs:183-218 | after a release, whatever Redis answered, the same cycle competes upwards from its random start and around |
| `LeaseExact.ValidateIsExact` | src/redis_admission/lease.rs:40-51 | validation accepts exactly positive whole milliseconds up to the largest 64-bit value with at least three intervals to a lease |
| `LeaseExact.AbandonedLingers` | src/redis_admission/lease.rs:99-139 | an abandoned or stopped cycle keeps the slot and leaves its awaited command on the wire behind older ones |
| `LeaseTask.Task.Elect` | src/redis_admission/lease.rs:206-219 | the scan visits a prefix of the circular order, ends owning exactly the last slot tried, and ends unowned without error only after an NX refusal from every slot; slot, deadline and commands are those its replies call for |
| `LeaseTask.Task.Hold` | src/redis_admission/lease.rs:191-219 | with the limit known, slot, deadline and commands are those the replies call for: a refused renewal gives the slot up, an unanswered one keeps it |
| `LeaseTask.Task.Settle` | src/redis_admission/lease.rs:183-220 | the same from the limit on, with an excess slot revoked and released before anything else |
| `LeaseDrive.StaleRidesAlong` | src/redis_admission/lease.rs:133-139 | commands left on the wire by an abandoned cycle influence neither the slot, nor the deadline, nor the commands of the next one |
| `LeaseTask.Task.Refresh` | src/redis_admission/lease.rs:172-220 | the whole refresh ends with the slot, deadline and commands its replies call for; an error leaves the revocation to the caller |
| `LeaseTask.Task.Cycle` | src/redis_admission/lease.rs:119-139 | one loop iteration, from its replies alone, and in agreement with any gateway of the transition system that shares its slot and deadline, cycle after cycle, whatever is on the wire |
| `LeaseTrace.EveryCycleIsDriven` | src/redis_admission/lease.rs:119-152 | every cycle of every run, from wake-up to its end, is the task's cycle for exactly the replies and failures that run delivered and the start it drew: same commands in order, same slot, deadline and phase |
| `Discovery.RecorderDiscovery.TryLookup` | src/redis_admission/discovery.rs:26-43 | a guard is handed out exactly when neither a cooldown nor another attempt is in force; a refusal changes nothing |
| `Discovery.Guard.Available` | src/redis_admission/discovery.rs:51-67 | consuming the guard as available releases the flag and clears the cooldown |
| `Discovery.Guard.Drop` | src/redis_admission/discovery.rs:57-68 | every drop releases the flag; an unmarked one starts a ten second cooldown |
| `Discovery.CooldownEndsOnTime` | src/redis_admission/discovery.rs:26-67 | after a marked guard the next lookup is granted; after an unmarked one exactly those before ten seconds are refused |
| `Discovery.OnlyOneIsGranted` | src/redis_admission/discovery.rs:26-43 | a granted lookup turns every other one away until its guard is dropped |
| `Discovery.SingleFlight` | src/redis_admission/discovery.rs:26-67 | in every run over all clones at most one guard is outstanding |
| `Discovery.FailuresAreSpaced` | src/redis_admission/discovery.rs:26-67 | any window of length W holds at most W / 10 s + 1 failed or cancelled attempts |
| `AttemptSpacing.AttemptFailuresAreSpaced` | src/redis_admission.rs:241-319 | the same for the failed and cancelled attempts of one provider in every admission run, with lost replies and late commands |
| `QuotaBound.InvStep` | src/redis_admission.rs:228-320 | every step of every provider, of Redis, of recorders and of the operator keeps the admission invariant |
| `QuotaBound.InvAlways` | src/redis_admission.rs:228-320 | the admission invariant (single flight per provider, count plus checked attempts bounded, tickets, increments and reservations ordered) holds in every state of every run |
| `QuotaBound.OneAttemptPerProvider` | src/redis_admission.rs:241-245 | a provider never has two attempts past discovery, and its flag is set exactly while it has one |
| `QuotaBound.Overshoot` | src/redis_admission.rs:259-312 | from zero or any reset on, while passing checks use limits up to `limit`, the count never exceeds `limit + G - 1` for G providers under every interleaving, loss and cancellation |
| `QuotaTight.OvershootIsTight` | src/redis_admission.rs:259-312 | for every limit of at least one and every G there is a run using that limit throughout whose count ends at exactly `limit + G - 1` |
| `QuotaBound.TallyIsExact` | src/redis_admission.rs:290-319 | the counter is the number of increments executed since the last reset, and the tally the number of tickets returned and of reservations confirmed |
| `QuotaBound.CancelledLingers` | src/redis_admission.rs:241-320 | a cancelled attempt frees the guard and leaves its awaited command on the wire behind older ones |
| `QuotaBound.Conservation` | src/redis_admission.rs:284-319 | tickets returned <= increments executed <= reservations confirmed since the last reset, counted over the steps of the run, when no attempt was carried across it |
| `QuotaBound.ResetIsExact` | src/redis_admission.rs:284-319 | that chain holds in all continuations of a reset if and only if no attempt stood between confirmed SET and returned ticket |
| `QuotaTight.ResetCanUncoverIncrement` | src/redis_admission.rs:290-312 | a run from the initial state with a reset between SET and HINCRBY that ends with an increment and no reservation since the reset |
| `QuotaTight.ResetCanUncoverTicket` | src/redis_admission.rs:301-319 | a run from the initial state with a reset between HINCRBY and its reply that ends with a ticket and no increment since the reset |
| `ReservationHistory.SlotFollowsHistory` | src/redis_admission.rs:284-300 | in every run the key of a scope is the cell obtained from the commands that reached it, in clock order |
| `ReservationHistory.TokensAlways` | src/redis_admission.rs:284-294 | no token is offered twice to a scope's key, even by commands of cancelled attempts that arrive late |
| `ReservationHistory.ReservationsSucceed` | src/redis_admission.rs:168-300 | in every run each accepted reservation follows its predecessor's completion or expiry, and the predecessor's ticket is inert from then on |
| `ReservationHistory.LostTicketsStayInert` | src/redis_admission.rs:168-220 | in every run, once an offered ticket does not own its slot, by expiry, completion or refusal, every later command with it answers false and changes nothing |
| `AcquireTask.CommandsPerOutcome` | src/redis_admission.rs:246-320 | the exact commands behind every outcome, always in the documented order; a missing recorder reads no counter and an uncapped API uses none |
| `AcquireTask.OutcomeIsExact` | src/redis_admission.rs:246-320 | every outcome, the offer of the token and the increment, each if and only if scope and replies call for it: a token only for a scope that fits a header and an origin with room, HINCRBY only after an accepted SET, a ticket only with the final eligibility check |
| `AcquireTask.CooldownIsExact` | src/redis_admission.rs:279-319 | the guard is marked available exactly on a counter at its limit, a refused SET and complete success; every other reply, error or cancellation starts the cooldown |
| `AcquireTask.EndsAtLastAwait` | src/redis_admission.rs:246-320 | an attempt ends at the await of its last command, which dates its cooldown |
| `AcquireTask.ExhaustedQuotaHidesAddress` | src/redis_admission.rs:254-289 | an address that is a URI but no plain origin ends in QuotaExhausted exactly when the counter is at its limit, in an error otherwise, and never offers a token |
| `AcquireTrace.EveryAttemptIsDriven` | src/redis_admission.rs:228-320 | every attempt of every run, from start to end or cancellation, is `acquire` for exactly the replies that run delivered, the token it drew and the eligibility it found last: same commands in order, same outcome, and the cooldown that outcome calls for |
| `AcquireTask.Provider.Acquire` | src/redis_admission.rs:228-320 | refusals before discovery touch nothing; otherwise outcome and commands are those of the transition system, the flag is released on every path, the cooldown is cleared exactly on Acquired, NX-Busy and QuotaExhausted, and lasts ten seconds on everything else |
| `AcquireTask.Provider.Guarded` | src/redis_admission.rs:246-300 | the part under the guard, ticket construction included, follows the transition system for every script of replies and interruptions |
| `AcquireTask.Provider.Reserved` | src/redis_admission.rs:290-320 | the same from the reservation to the final eligibility check |
| `Participation.TicketsNeedLiveSlots` | src/redis_admission.rs:313-319 | every ticket of a lease-limited provider is issued while its boot token is live in Redis under the slot it owns |
| `Participation.IssuersAreBounded` | src/redis_admission.rs:233-319 | at any instant no more providers can issue a ticket than the largest limit ever published |
| `Policy.FirstMatch` | src/redis_admission/policy.rs:157-165 | selects a matching template with no earlier match, and nothing only when none matches |
| `Policy.AddPrefix` | src/redis_admission/policy.rs:186-198 | appends the two templates of a literal absolute path, trailing slashes trimmed, and refuses every other path |
| `Policy.BuildIndex` | src/redis_admission/policy.rs:182-184 | succeeds exactly when every template is well formed and the index library raises no further objection to the list |
| `Policy.CompileIncludes` | src/redis_admission/policy.rs:124-137 | succeeds exactly on readable rules, with the exact patterns and prefix templates in declaration order |
| `Policy.CompileExcludes` | src/redis_admission/policy.rs:138-145 | succeeds exactly on readable rules, with all their templates in declaration order |
| `Policy.Compile` | src/redis_admission/policy.rs:117-154 | succeeds exactly on acceptable configurations (a limit that fits, readable rules, three lists the index accepts), with the indexes of their rules |
| `Policy.PrefixIsTwoTemplates` | src/redis_admission/policy.rs:186-198 | a prefix covers a path by whole segments exactly when one of its two templates matches, trailing slashes and `/` included |
| `Policy.TrimEndIsExact` | src/redis_admission/policy.rs:194-194 | trimming a prefix cuts slashes only, and all of them |
| `Policy.PlainPrefixCovers` | src/redis_admission/policy.rs:194-196 | a prefix without trailing slash covers exactly itself and the paths below it |
| `Policy.TrailingSlashIsIgnored` | src/redis_admission/policy.rs:194-196 | a trailing slash on a prefix makes no difference |
| `Policy.RootCoversAll` | src/redis_admission/policy.rs:194-196 | the prefix `/` covers exactly the absolute paths |
| `Policy.SegmentsMatchIsExact` | README.md:118-119 | segments correspond one to one, a parameter taking one nonempty segment, and a terminal catch-all takes any remainder |
| `Policy.ParameterTemplate` | README.md:118-119 | `base/:name` matches exactly `base/value` for one nonempty segment |
| `Policy.LiteralPathIsExact` | src/redis_admission/policy.rs:187-193 | a prefix path is accepted exactly when it is absolute and no slash is followed by a colon or an asterisk |
| `Policy.ValidTemplateIsExact` | README.md:118-119 | a template is well formed exactly when it is absolute and its catch-all, if any, is terminal |
| `Policy.AcceptableIsExact` | src/redis_admission/policy.rs:117-180 | which configurations compile, in terms of the text of their rules, the limit that fits a signed 64-bit integer, and the library's objections |
| `Policy.CompiledRefinesRules` | src/redis_admission/policy.rs:117-165 | `api` on the compiled indexes is the rule-by-rule meaning for every accepted policy and every path |
| `Policy.TemplateMatchesItself` | src/redis_admission/policy.rs:128-134 | every template matches its own text |
| `Policy.CounterIdentity` | src/redis_admission/policy.rs:128-165 | two admitted paths share a counter exactly when they resolve to equal exact patterns or are equal prefix-only paths; the two kinds never collide |
| `PolicyStore.Store.Load` | src/redis_admission/policy.rs:45-77 | the snapshot afterwards is the one recompiling would give, shortcut or not; failed loads change nothing; a loaded policy is the compilation of the stored raw value |
| `PolicyStore.InvStep` | src/redis_admission/policy.rs:41-77 | every step of concurrent loads keeps coherence and never lowers the published version |
| `PolicyStore.SnapshotsNeverGoBack` | src/redis_admission/policy.rs:41-77 | under concurrent loads with cancellation the Redis versions of successive snapshots never go backwards, and each snapshot compiles one past value |
| `PolicyStore.LoadsPublishWhatTheyRead` | src/redis_admission/policy.rs:45-77 | a load that finishes publishes the value that was current when it read the key, if acceptable, and else leaves the snapshot alone, whatever ran in between |
| `PolicyStore.EndedLoadFreesTheLock` | src/redis_admission/policy.rs:45-77 | a load that finishes, fails or is cancelled leaves the lock to a waiting one, and a cancelled one leaves the snapshot alone |
| `Recording.DecisionFollowsRules` | src/redis_admission.rs:334-341 | a path is eligible exactly when the loaded policy value declares an API for it, under that API and that value's cap, and without a quota only when it has no cap |
| `Recording.CapIsEnforced` | src/redis_admission.rs:259-341 | under a capped policy the counter of the request's API is read before anything is offered, a counter at the cap and nothing else answers QuotaExhausted, and a ticket follows only a counted reservation |
| `Recording.MissingPolicyRecordsAll` | src/redis_admission/policy.rs:28-67 | nothing is eligible before the first load; a missing key then makes every path eligible without a cap |
| `Recording.ZeroCapRecordsNothing` | src/redis_admission/policy.rs:157-160 | a zero cap makes every path ineligible |
| `Recording.RecordingProvider.TryAcquireRequest` | src/redis_admission.rs:329-344 | ineligible and non-participating requests touch nothing; an eligible one is `acquire` under the counter field and cap of its snapshot |
| `Recording.LookLeadsToRequest` | src/redis_admission.rs:334-341 | an eligible request goes on to `acquire` under the quota of the snapshot it looked at |
| `Recording.InvStep` | src/redis_admission.rs:329-344 | every step of publications, loads, requests and admission keeps each quota, pending increment and counter field traceable to a published policy |
| `Recording.InvAlways` | src/redis_admission.rs:329-344 | that traceability holds in every state of every run |
| `Recording.CountersAreApis` | src/redis_admission.rs:334-341 | every counter field ever written is the `api` of some path under some published, capped policy |
| `Recording.PublishedCapsBoundCounters` | src/redis_admission.rs:259-341 | every counter stays within the largest `case-limit` ever published plus G - 1, for G providers with independent snapshots, in every interleaving; it stays zero if no version allowed a capped case |
| `Headers.TrimAscii` | src/proxy.rs:270-278 | the loop trims to the specification function |
| `Headers.TrimIsExact` | src/proxy.rs:270-278 | trimming cuts blank margins only, and all of them |
| `Headers.HeaderMap.CollectNominated` | src/proxy.rs:237-242 | collects exactly the names nominated by any Connection line |
| `Headers.HeaderMap.RemoveHopByHop` | src/proxy.rs:236-262 | removes exactly the nominated fields (Upgrade exempt when preserving), the fixed list, and Connection and Upgrade when not preserving; all else keeps its values |
| `Headers.RemovalIsExact` | src/proxy.rs:236-262 | which fields cross a hop, by their literal names and the nominations |
| `Headers.NominatedIsExact` | src/proxy.rs:228-242 | every Connection line counts, for nominations and for upgrades |
| `Headers.ListMembers` | src/proxy.rs:237-268 | nominations and tokens are the trimmed members of the comma-separated list |
| `Headers.TokenCharIsExact` | src/proxy.rs:241-241 | names are read from the characters that section 5.6.2 of RFC 9110 does not reserve |
| `Headers.ParseNameIsExact` | src/proxy.rs:241-241 | a name is read exactly from a nonempty token, in lower case |
| `Headers.LowerIsExact` | src/proxy.rs:264-268 | letter case is folded for the 26 letters and for nothing else |
| `Headers.UpgradeInAnyCase` | src/proxy.rs:228-234 | every letter case of `upgrade` anywhere in a Connection list announces an upgrade |
| `Headers.UpgradeNeedsBoth` | src/proxy.rs:228-234 | an upgrade has an Upgrade field and a Connection member that reads `upgrade` |
| `Headers.StrippedIsIdempotent` | src/proxy.rs:236-262 | removing hop-by-hop fields twice is removing them once, even when Connection nominates itself |
| `Headers.UpgradeSurvives` | src/proxy.rs:228-262 | an upgrade request remains one after preserving removal if and only if Connection does not nominate itself |
| `Headers.SelfNominatedUpgradeIsLost` | src/proxy.rs:228-262 | the request with `connection: upgrade, connection` is an upgrade before preparation and none after it |
| `Headers.UpgradeIsRemoved` | src/proxy.rs:258-261 | without preservation nothing of an upgrade remains |
| `Ticket.NewIsExact` | src/admission.rs:24-41 | a ticket exists exactly when scope and token are both neither blank nor unfit for a header value |
| `Ticket.SendableIsExact` | src/admission.rs:26-34 | what a ticket can carry, character by character: printable or tab throughout, and something beyond blanks |
| `Ticket.ScopeDecides` | src/redis_admission.rs:284-289 | with a hexadecimal random token, whether the ticket can be built depends on the scope alone |
| `Ticket.WithOrigin` | src/admission.rs:57-68 | accepted exactly for http origins with an authority, no query and no path but the root; scope and token stay as they are, anything else is an invalid recorder URL |
| `Ticket.AttachRoundTrip` | src/admission.rs:75-106 | reading the headers of a request with an attached ticket gives back its scope and token, whatever the headers held before |
| `Ticket.FromHeadersIsExact` | src/admission.rs:75-96 | a ticket is read exactly from one sendable line of each header, none from neither header, and everything else, repeated lines included, is refused |
| `Ticket.DetachUndoesAttach` | src/proxy/replay.rs:41-42 | removing the admission headers restores the header map from before attaching |
| `Proxy.AppendForwardedFor` | src/proxy.rs:209-226 | the peer address is appended to the first readable line, and replaces a missing or unreadable one |
| `Proxy.PrepareHeaders` | src/proxy.rs:182-202 | the in-place edits compute the prepared fields |
| `Proxy.PreparationIsExact` | src/proxy.rs:182-202 | outside the five rewritten fields, a field crosses the hop with its values if and only if it is not hop-by-hop |
| `Proxy.RewrittenFields` | src/proxy.rs:183-200 | the exact values of the forwarded and admission fields after preparation |
| `Proxy.TicketSurvivesPreparation` | src/proxy.rs:192-200 | whatever the client nominated, the prepared headers give back the gateway's ticket |
| `Replay.ReplayBody.constructor` | src/proxy/replay.rs:63-72 | the frames a replay can emit carry exactly the retained bytes and trailers |
| `Replay.ReplayBody.PollFrame` | src/proxy/replay.rs:83-97 | emits the remaining frames in order, each once, then ends |
| `Replay.ReplayBody.IsEndStream` | src/proxy/replay.rs:99-101 | true exactly when no frame remains |
| `Replay.ReplayBody.SizeHint` | src/proxy/replay.rs:103-109 | an exact size is given exactly when no trailers remain, and is then the size of the whole remaining body |
| `Replay.Deliver` | src/proxy/replay.rs:17-30 | collecting a body and polling its replay to the end gives back the same bytes and trailers |
| `Replay.ConcatInOrder` | src/proxy/replay.rs:25-26 | body bytes are put together in the order in which they came |
| `Replay.ReceivedInOrder` | src/proxy/replay.rs:83-97 | a receiver gets the data frames in order and the trailers after them |
| `Dispatch.ContactIsExact` | src/proxy.rs:158-202 | what an origin is sent: nothing exactly without a target or when its URI cannot be built, else the same method, version, path, query, body and trailers, at the ticket's recorder or else the configured origin, with exactly the fields that cross the hop |
| `Dispatch.UpgradeReachesOrigin` | src/proxy.rs:118-202 | an origin receives an upgrade exactly when the client sent one whose Connection does not nominate itself |
| `Dispatch.AnswersAreExact` | src/proxy.rs:106-156 | the response, tunnel and replay that each answer of the client leads to, with their literal status codes |
| `Dispatch.SanitizedIsExact` | src/gateway.rs:192-197 | a request is let in without the three reserved headers and otherwise as it came |
| `Dispatch.TryForward` | src/proxy.rs:100-156 | at most one contact; the upgrade handle is spent exactly when the origin accepts the handshake and stays available after a connect failure |
| `Dispatch.Forward` | src/proxy.rs:76-98 | one attempt whose connect failure becomes a 502; a tunnel exactly for an accepted upgrade |
| `Dispatch.ForwardRecording` | src/proxy/replay.rs:4-60 | the fallback follows the recorder only after a connect failure or a 404 outside an upgrade, at most once and with a final answer |
| `Dispatch.Handle` | src/gateway.rs:187-282 | for every route, admission outcome and upstream behaviour: excluded and unmatched requests never see the recorder, global recording decides before the route's rule, at most two contacts and one tunnel, the fallback at most once, and a replay that is exactly the direct fallback request |
| `Dispatch.RetryIsDirect` | src/proxy/replay.rs:28-42 | the retained copy of an admitted request is the sanitized request again |
| `Dispatch.ReplayIsTransparent` | src/proxy/replay.rs:17-59 | the retry equals direct fallback forwarding in authority, method, URI, header fields, body and trailers, has no admission header, and goes to the fallback's own authority |
| `Dispatch.RecorderReceivesTicket` | src/gateway.rs:233-239 | the recorder selected by the ticket receives exactly that ticket, whatever the client sent or nominated |

## Left out

- QuotaBound.Overshoot: asks for a limit of at least one, because attempts checked before a reset may still count after it; `Recording.PublishedCapsBoundCounters` has no such condition.
- QuotaBound.Conservation: asks that no attempt was carried across the last reset; `QuotaBound.ResetIsExact` shows that this is exactly when the chain can be relied on.
- Proxy.RewrittenFields: asks for a printable peer address and no name without lines, which the address formatter and the header map guarantee.
- Proxy.AppendForwardedFor: further X-Forwarded-For lines are replaced, as in the source, so no claim is made that every existing value is kept.
- Policy.BuildIndex: what the route index refuses beyond malformed templates, such as repeated templates or parameter names, is an arbitrary predicate on the list, because the index is not part of the repository.
- Policy.Compile: inherits that predicate; everything proved about lookup holds whatever it refuses.
- Listeners, connection limits, shutdown, upgrade task tracking and the byte relaying of tunnels: these delegate to libraries outside the repository.
- CORS preflight, response header policy and response bodies; `handle` is modelled from its request sanitizing to its upstream response.
- The route table: exclusion and selection enter `handle` as an input.
- The internals of the route index beyond the stated template meaning.
- JSON and URI parsing: functions given to the loader and the compiler; `registration::origin` is reduced to which of four kinds of address it finds.
- Decimal parsing of limits and counts; a malformed limit is an error reply, and malformed counters, which only a foreign writer could create, end the attempt like any failed await.
- 64-bit width of counters and the length limit of header names: integers and names are unbounded.
- Durations inside `PolicyStore`: a load may be cancelled at any of its awaits; its 200 ms budget enters the lease timing.
- Probability of token collisions and the distribution of jitter: freshness and ranges are used instead.
- Configuration checks on key names.
- Logging and error texts.
