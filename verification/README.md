# servr, verified

`servr` is a fault-injection testbed driven by a virtual clock. This project models its state machines and its small
algorithms in Dafny and proves what they are for: a job is claimed once however many schedulers poll, no event goes
missing unreported, a webhook climbs its retry ladder and stops, a reset really is a boot.

`dafny verify dfyconfig.toml` checks all of it. A file models one source file or one protocol over several:

| file | what it models |
|---|---|
| `Glob.dfy` | the route wildcard matcher |
| `Fault.dfy`, `FaultLayer.dfy` | fault rules, the fold over the rules that fire, and what the HTTP layer then does |
| `Job.dfy`, `MemoryStore.dfy`, `Scheduler.dfy` | jobs, the in-process store, one scheduler and its tick |
| `Json.dfy`, `RedisStore.dfy` | stored jobs as JSON, the claim script, the hash and the due set |
| `QueueProtocol.dfy` | any number of schedulers over one store, step by step |
| `QueueHistory.dfy`, `QueueAnswers.dfy` | what can happen to one job, and what its handler's answers make of it |
| `QueueEvents.dfy`, `QueueOrder.dfy` | how often and in which order the bus is told about it |
| `RedisProtocol.dfy` | the same protocol over Redis |
| `Bus.dfy`, `BusOrder.dfy` | numbered events over a bounded broadcast ring, and the order in which subscribers see them |
| `Outbound.dfy`, `Sign.dfy` | webhook deliveries and their signatures |
| `Hub.dfy`, `HubServer.dfy`, `Conn.dfy` | WebSocket topics, fan-out outside the lock, one connection's frame loop |
| `Time.dfy`, `Clock.dfy`, `ControlPlane.dfy` | virtual time, the clock, layered configuration, snapshots |
| `Text.dfy`, `Allowlist.dfy`, `Stream.dfy` | string operations, the mail allowlist, the tokenizer and the paced streams |
| `Options.dfy`, `Bytes.dfy`, `Int64.dfy`, `Counting.dfy` | shared types and counting |

Each part has two layers. Classes and methods follow the code: the same fields updated in place, the same loops, the
same branches. Their contracts tie the new state to functions on values. Lemmas then prove what those functions keep
over whole runs. Concurrency is a state machine over its atomic steps: a lock-protected block or one atomic operation
is a step, and steps interleave freely.

Hypotheses that the results carry in the open:

- Times of one clock lie whole milliseconds apart. `Clocks.ReadingsWholeMillisApart` proves this of the clock; the
  queue protocol asks it of every enqueued job, since due times are a clock reading plus whole milliseconds.
- Job, delivery and connection ids are fresh (they are UUIDs).
- The keyed hash of a signature is any function of a secret and a message; random draws are any sequence of rolls.
- The broadcast ring follows its documented contract: one shared buffer of the last `capacity` events, a cursor for each
  receiver, nothing stored while nobody is subscribed, and a receiver too far behind resumes at the oldest event kept.

## Where the code and its comments differ

The model follows the code in each case, and a lemma says exactly when the comment holds.

- The two job stores are meant to be interchangeable (crates/queue/src/store.rs:24-26). The claim script decodes each job
  and encodes it again; an empty backoff list comes back as an object, an integer of more than 14 digits as a float, and
  1.0 in a payload as 1. When a backoff list is among them, the claim reports an error after it has marked the whole batch running and taken it out of the due set, and the
  batch stays that way for good. A claim leaves the two stores alike exactly when both claim the same jobs, which is
  when none falls due later within the millisecond of the claim, and every claimed job survives the script. For the
  schedulers it is enough that backoff lists survive: payloads apart, they then cannot tell the stores apart in any run.
- Every transition is announced exactly once, but for the starts of lost claims, which nobody announces, and a result
  whose write-back failed, which is announced all the same while the job stays running for ever. A scheduler writes a
  result back before it announces it, so with two schedulers the announcements about one job can be out of order. They
  are in order exactly when no start overtakes the previous result and no failed write-back is announced.
- An emitter takes its number and sends in two steps, so events can be delivered out of the order of their ids: exactly
  when one that is stored overtakes an emitter that took its number before.
- A gap carries the next unassigned id (crates/core/src/bus.rs:139), so ids step back by the ring's capacity from a gap to
  the event after it, and the next emitted event has the same id as the gap.
- `freeze` keeps `now` where it is (crates/core/src/clock.rs:87) only on a running clock: on a frozen one it captures
  again and time jumps. `resume` swaps the flag before it repays the time skipped, so a reader in between sees a time
  that is too late by the whole freeze, and a freeze in between makes the first freeze count as elapsed. `now` is three
  loads, and a resume between the last two makes it too early by the whole freeze.
- `add_fault` appends to what is in force (crates/admin/src/lib.rs:812-813) exactly when it finds the rules in force that
  it read; otherwise a rule added in between is lost, or a clear in between is undone.
- The effects of a request name "status" also for a status code that does not exist, which overrides nothing.
- Joining the pieces of a stream gives the input back, as crates/stream/src/chunks.rs:53-55 has it, exactly when the text
  had no white space at either end and single plain spaces in between. Words are never lost.
- With `max_attempts` zero, one attempt is still made.
- An empty allowlist is shown as a sentence, and that sentence parses as an entry.

## Model

| member | source | states |
|---|---|---|
| Glob.GlobMatch | crates/core/src/fault.rs:81-109 | the loop ends, and returns true exactly when some choice of one run of bytes for each star spells the text |
| Glob.MatchesIsSpells | crates/core/src/fault.rs:77-80 | the relation the loop decides, recursive over the pattern, is the declarative one |
| Glob.CommitToNewStar | crates/core/src/fault.rs:88-91 | once the literal between two stars is matched, forgetting the earlier star loses no match and adds none |
| Glob.SwallowOneMore | crates/core/src/fault.rs:95-99 | when the rest fails where it stands, letting the star swallow one more byte keeps the answer |
| Glob.TextRanOut | crates/core/src/fault.rs:105-108 | when the text is used up inside the literal after the last star, only what is left of the pattern decides |
| Faults.FaultsFor | crates/core/src/config.rs:84-86 | the rules whose route matches the path, all of them, in declaration order |
| Faults.ApplyingAppend | crates/core/src/config.rs:82-86 | rules declared later apply after those declared earlier, whatever the split |
| Faults.ApplyingPicks | crates/core/src/config.rs:82-86 | the rules that apply, by their places: ascending, all that match and no other |
| Faults.DelayAdds | crates/core/src/fault.rs:46-55 | a rule with a base latency adds it and the whole part of jitter times roll, one without adds nothing |
| Faults.DelayIsBounded | crates/core/src/fault.rs:46-55 | for rolls below one, no less than the latency and no more than latency and jitter |
| FaultLayers.Resolve | crates/http/src/fault.rs:53-80 | delay is the sum over the rules that fire with latency; status and cut are the last fired ones; drop is any fired one; names are theirs in order; and the rolls drawn |
| FaultLayers.RollsUsed | crates/http/src/fault.rs:56-62 | one roll for each rule and a second for each that fires |
| FaultLayers.Layer | crates/http/src/fault.rs:148-191 | a request meets exactly the effects of the rules of its path |
| FaultLayers.WhatTheClientGets | crates/http/src/fault.rs:162-189 | aborted iff a fired rule drops; answered without the handler iff none does and one sets a valid status; either with the last status set, or 200; otherwise the handler's response, its body as many first bytes as the last cut lets through, under the full announced length |
| FaultLayers.NamesTellTheEffects | crates/core/src/fault.rs:59-74 | each name is recorded iff its effect is in force, but for a status out of range, which is named and overrides nothing |
| FaultLayers.NamesInOrder | crates/core/src/fault.rs:59-74 | the names of one rule come in a fixed order, each at most once |
| FaultLayers.OverridesIff | crates/http/src/fault.rs:65-68 | a rule overrides the status exactly when it names a three-digit code |
| FaultLayers.CertainRules | crates/http/src/fault.rs:56-60 | a rule at rate 1 fires and one at rate 0 does not, whatever the rolls and wherever it stands |
| MemoryStores.MemoryStore.Put | crates/queue/src/store.rs:96-99 | adds the job, overwriting one with the same id, and changes no other |
| MemoryStores.MemoryStore.ClaimDue | crates/queue/src/store.rs:101-123 | claims exactly the scheduled jobs due by now, each once, marked running with the attempt counted, and touches no other |
| MemoryStores.MemoryStore.Depth | crates/queue/src/store.rs:66-76 | the number of jobs not in a terminal state |
| MemoryStores.ClaimedOnce | crates/queue/src/store.rs:55-60 | what a claim took, no later claim at any time takes again |
| MemoryStores.ClaimKeepsDepth | crates/queue/src/store.rs:66-76 | a claim neither adds nor retires a job |
| QueueProtocol.SafeStep | crates/queue/src/scheduler.rs:94-170 | every step of every scheduler, failed claims and write-backs included, keeps attempt counts within bounds, every claimed job with one holder exactly as the store has it, and pending answers those of a handler |
| QueueProtocol.EveryRunIsExclusive | crates/queue/src/store.rs:55-60 | over every run of any number of schedulers, flights are disjoint, together they are the running jobs that are not stranded, and attempts stay within max(1, maximum) in every state, `Failed` never being reached |
| QueueProtocol.NothingRunsBetweenTicks | crates/queue/src/scheduler.rs:94-108 | with all schedulers at rest and no failed claim or write-back, nothing is left running |
| QueueProtocol.FinishedForEver | crates/queue/src/scheduler.rs:135-170 | no step touches a succeeded or dead job, nor one whose claim or write-back failed |
| QueueProtocol.FinishedForEveryRun | crates/queue/src/scheduler.rs:135-170 | such a job is the same after any run, and a stranded one stays stranded |
| QueueHistory.TotalWaitIs | crates/queue/src/job.rs:84-96 | the first k waits of a job add up to the list's first k entries, and its last entry again for each attempt beyond it; to nothing for an empty list |
| QueueHistory.ChainShape | crates/queue/src/scheduler.rs:110-164 | a job's transitions alternate start and end, count attempts up by one, retry in between, and end at most once, in Succeeded, or in Dead at exactly the last permitted attempt |
| QueueHistory.NotBefore | crates/queue/src/scheduler.rs:147-153 | attempt k+1 is not claimed before the first due time plus the first k waits |
| QueueHistory.DeadNoEarlier | crates/queue/src/job.rs:84-96 | a dead job made every permitted attempt, and died no earlier than its first due time plus every wait |
| QueueHistory.EveryRunKeepsHistory | crates/queue/src/scheduler.rs:110-170 | over every run, failed claims and write-backs included, each job's history is such a chain ending in its state, no attempt reaches its handler twice, every attempt of a job at rest has reached it but one a lost claim took, and all handler calls together stay within the permitted attempts |
| QueueAnswers.StateTellsTheAnswer | crates/queue/src/scheduler.rs:132-163 | in every run, a job that is neither held nor stranded is as it was enqueued, or its current attempt was answered and that answer tells its state: succeeded exactly after a success, dead exactly after a failure with no attempt left, otherwise scheduled again with its wait counted from the answer; its last error is the answer's |
| QueueEvents.EveryTransitionIsAnnounced | crates/queue/src/scheduler.rs:172-193 | in every run at rest, announcements and the starts of lost claims are together, transition by transition, what the store did and the results it failed to record |
| QueueOrder.AnnouncementOrder | crates/queue/src/scheduler.rs:137-170 | for every run: announcements about each job are at all times a prefix of its history exactly when no start overtakes the previous result and no result is announced that could not be written back |
| QueueOrder.OneSchedulerNeverOvertakes | crates/queue/src/scheduler.rs:105-107 | one scheduler alone never announces a start before the result that led to it |
| QueueOrder.OneSchedulerInOrderIff | crates/queue/src/scheduler.rs:137-158 | one scheduler alone announces in order at all times exactly when it announces no result that it could not write back |
| QueueOrder.TwoSchedulersCanOvertake | crates/queue/src/scheduler.rs:153-154 | a concrete run of two schedulers that announces a start before the retry that led to it |
| Schedulers.Scheduler.constructor | crates/queue/src/scheduler.rs:46-65 | a new scheduler knows a kind that succeeds and a kind that fails |
| Schedulers.Scheduler.Register | crates/queue/src/scheduler.rs:67-73 | adds or replaces the handler of one kind |
| Schedulers.Scheduler.Execute | crates/queue/src/scheduler.rs:110-164 | store and bus after one job: settled by its handler's answer, start and end announced; an unknown kind fails |
| Schedulers.Scheduler.Tick | crates/queue/src/scheduler.rs:94-108 | store and bus after claiming and executing every due job in turn |
| Schedulers.TickSettlesEveryDueJob | crates/queue/src/scheduler.rs:94-164 | after a tick every due job has made one more attempt: succeeded exactly if the handler of its kind said so, never for a kind not registered; otherwise scheduled again while an attempt is left, its wait counted from the answer, and dead when none is; every other job is untouched |
| Schedulers.TickIsARun | crates/queue/src/scheduler.rs:94-164 | some run of the protocol leads from the claim to rest with the same store and announcements as a tick |
| Json.RecodeIsIdentityOnPlain | crates/queue/src/redis_store.rs:48-51 | a value comes back from the script's decoding and encoding unchanged exactly when it has no empty array, no number beyond 14 digits, and no float that is a whole number of at most 14 digits, however written |
| Json.RecodeChanges | crates/queue/src/redis_store.rs:48-51 | an empty array becomes an empty object, an integer too long another number, and the rest keeps its shape with the same changes inside |
| Json.RecodeOnceIsEnough | crates/queue/src/redis_store.rs:48-51 | what has been through the script once comes back unchanged from then on |
| Json.PlainIntIff | crates/queue/src/redis_store.rs:48-51 | an integer survives exactly with at most 14 digits |
| RedisStores.DecodeEncode | crates/queue/src/redis_store.rs:93-99 | a stored job reads back as itself |
| RedisStores.ScoreOverApproximates | crates/queue/src/redis_store.rs:87-91 | comparing scores errs only towards claiming early, exactly within the millisecond of the claim, and not at all for times whole milliseconds apart |
| RedisStores.ScoreIsTheMillisecond | crates/queue/src/redis_store.rs:87-91 | a score is the millisecond a time lies in, so two times share one exactly when they lie in the same |
| RedisStores.ScriptOutcome | crates/queue/src/redis_store.rs:47-53 | what a claimer reads back from the script for one job: the marked job, one with its payload re-encoded, or an unreadable record, and exactly when |
| RedisStores.PutMirrors | crates/queue/src/redis_store.rs:103-126 | a put keeps the hash the jobs and the due set the scheduled ones with their scores |
| RedisStores.SameClaim | crates/queue/src/redis_store.rs:36 | both stores would claim the same jobs exactly when no scheduled job falls due later within the millisecond of the claim |
| RedisStores.ClaimMirrors | crates/queue/src/redis_store.rs:35-57 | a claim keeps the two stores alike exactly when both claim the same jobs and every one of them survives the script |
| RedisStores.ErrorIffUnreadable | crates/queue/src/redis_store.rs:128-142 | whatever the hash holds, the caller gets an error exactly when some claimed record cannot be read once marked |
| RedisStores.ClaimAnswer | crates/queue/src/redis_store.rs:128-142 | for records as `put` left them: an error exactly when some backoff list does not survive, otherwise the in-process store's jobs with payloads as the script leaves them, and those very jobs when all survive |
| RedisStores.OutUntilPut | crates/queue/src/redis_store.rs:103-142 | over any puts and claims, what is out of the due set stays out, its record unchanged, until that job is put again |
| RedisStores.OneBadJobStrandsTheBatch | crates/queue/src/redis_store.rs:128-142 | with one unreadable backoff list the whole batch is reported as an error, marked running, and out of the due set after any further puts of other jobs and claims |
| RedisStores.EmptyBackoffTellsTheStoresApart | crates/queue/src/redis_store.rs:48-51 | a due job with an empty backoff list is handed out by one store and lost by the other |
| RedisStores.RunMirrors | crates/queue/src/redis_store.rs:102-142 | over every faithful run of puts and claims both stores hold the same jobs and would claim the same ones |
| RedisStores.RedisStore.Put | crates/queue/src/redis_store.rs:103-126 | one hash entry, and the due set gains or loses that id by the job's state |
| RedisStores.RedisStore.RangeByScore | crates/queue/src/redis_store.rs:36 | every member up to the bound, once, lowest score first |
| RedisStores.RedisStore.MarkAll | crates/queue/src/redis_store.rs:44-56 | rewrites exactly the claimed entries that exist and returns them in order |
| RedisStores.RedisStore.ClaimDue | crates/queue/src/redis_store.rs:128-142 | on any store: the due set loses exactly what was in range, the hash is rewritten there, and the answer is those records decoded, earliest due first |
| RedisProtocol.SameClaimOverRedis | crates/queue/src/store.rs:24-26 | in every safe state a claim by any scheduler takes the same jobs from Redis; it gets an error exactly when some backoff list does not survive, and otherwise the same jobs, payloads as the script leaves them, with the keys still in step |
| RedisProtocol.LostForGood | crates/queue/src/scheduler.rs:97-103 | the jobs of a claim that came back as an error stay running, as it left them, in every run from there |
| RedisProtocol.FollowsStep | crates/queue/src/store.rs:24-26 | in every safe state Redis allows exactly the protocol's steps, but for claims out of score order and successful claims of a job whose backoff list does not survive, and after each step still follows the in-process store |
| RedisProtocol.RedisServesEveryRun | crates/queue/src/store.rs:24-26 | from empty stores, the runs of any number of schedulers over Redis are exactly the protocol's runs made of such steps, with the same flights, announcements and handler calls, payloads re-encoded once claimed; the due set is the scheduled jobs; and a record is its job exactly if never claimed or plain, lost claims excepted |
| RedisProtocol.ExclusiveOverRedis | crates/queue/src/store.rs:55-60 | over Redis, whatever is enqueued, no job is in two flights and no attempt reaches its handler twice |
| Bus.EveryEventIsAccountedFor | crates/core/src/bus.rs:123-150 | for every subscriber in every run: delivered plus gaps, plus one about to be yielded, plus backlog is what was sent since it subscribed, each gap hides one contiguous block, and `dropped` is the sum of what all have counted |
| Bus.UnsubscribedForGood | crates/core/src/bus.rs:123-150 | who has gone gets nothing more in any run |
| Bus.EveryIdIsUsedOnce | crates/core/src/bus.rs:116-121 | over every interleaving of emitters the ids given out are 0 to n-1, each once |
| BusOrder.SerialSubscribersSeeEveryId | crates/core/src/bus.rs:123-146 | with serialised emits, ids of delivered events ascend by one, and across a gap by as many as it reports |
| BusOrder.GapIdsRunAhead | crates/core/src/bus.rs:134-141 | over every run with serialised emits, for each subscriber: the event after a gap has an id smaller by exactly the capacity than the gap's, and otherwise ids do not go down |
| BusOrder.StreamGoesUpIff | crates/core/src/bus.rs:134-141 | so a subscriber's whole stream, gap ids included, never steps back exactly when no gap is followed by an event |
| BusOrder.NextEventTakesTheGapId | crates/core/src/bus.rs:139 | the next event emitted and stored has the id the gap carried |
| BusOrder.DeliveryOrderIsIdOrder | crates/core/src/bus.rs:116-121 | for every run of any emitters and subscribers: stored events, and after them those still to be sent, are at every moment in id order exactly when no stored event overtakes an emitter that took its number before |
| BusOrder.LogAscendsIff | crates/core/src/bus.rs:116-121 | with somebody subscribed throughout and nothing left to send, the ids stored ascend exactly when every event was sent in its turn |
| BusOrder.InTurnSubscribersSeeOrder | crates/core/src/bus.rs:123-146 | in a run in turn every subscriber sees ids ascend, however much it misses |
| BusOrder.SubscriberSeesOrderIff | crates/core/src/bus.rs:116-146 | a subscriber there from the start that took everything and missed nothing sees ids ascend exactly when every event was sent in its turn |
| BusOrder.UnserialisedEmittersCanSwap | crates/core/src/bus.rs:116-121 | a subscriber receives the second of two numbers first |
| Bus.ReceiveIsItsSteps | crates/core/src/bus.rs:134-141 | a receive, the count and the stamp of a gap, with nothing in between, are one receive as the ring does it |
| Bus.BroadcastBus.Emit | crates/core/src/bus.rs:116-121 | takes the next id and stores the event in the ring, unless nobody is subscribed |
| Bus.BroadcastBus.Subscribe | crates/core/src/bus.rs:123-128 | a live tail: nothing from before is replayed |
| Bus.BroadcastBus.Recv | crates/core/src/bus.rs:130-145 | reading the ring agrees with reading an unbounded log: the next event, or one gap up to the oldest event kept, counted in `dropped` |
| Outbound.AttemptedOk | crates/hooks/src/outbound.rs:220-286 | an attempt keeps an unfinished delivery due exactly at its next rung with an attempt left, finishes it iff answered with a 2xx status or out of attempts, and counts a request iff one was sent |
| Outbound.OutcomeIsTheReceivers | crates/hooks/src/outbound.rs:289-303 | past `fail_first` the outcome is what the receiver answers to this attempt, up to it the attempt fails whatever the receiver, and a request is sent exactly past it |
| Outbound.DueOffsets | crates/hooks/src/outbound.rs:72-93 | the first attempt is due at once and each further one its own backoff entry after the one before; without a list one second, five and thirty |
| Outbound.RungsAreTheBottom | crates/hooks/src/outbound.rs:85-93 | due times ascend, so the attempts due by a time are the first ones |
| Outbound.LadderProgress | crates/hooks/src/outbound.rs:203-286 | against a failing receiver, k ticks at one time make exactly as many attempts as there are rungs due, one a tick |
| Outbound.LadderFixpoint | crates/hooks/src/outbound.rs:203-286 | at a fixed time the ladder rests at the number of rungs due and further ticks change nothing |
| Outbound.LadderFinishes | crates/hooks/src/outbound.rs:80-93 | once the whole ladder is due, exactly the attempts left finish the delivery, and no fewer |
| Outbound.AcceptedLadder | crates/hooks/src/outbound.rs:203-303 | against an accepting receiver, k ticks at one time make the attempts due, one a tick, up to the first not failed on purpose, which ends the delivery, accepted if there is such an attempt |
| Outbound.FreshIsAccepted | crates/hooks/src/outbound.rs:253-263 | a new delivery, all of it due, ends at attempt min(`fail_first` + 1, maximum), accepted exactly if `fail_first` is below the maximum |
| Outbound.QueueStep | crates/hooks/src/outbound.rs:157-178 | every step keeps every delivery consistent, its place and its identity, and the count of requests sent |
| Outbound.NoDeliveryIsLost | crates/hooks/src/outbound.rs:203-286 | over every interleaving of enqueues with a tick, nothing is lost, duplicated or reordered, a finished delivery never changes, and requests sent are the attempts past `fail_first` |
| Outbound.NoDeliveryIsEverLost | crates/hooks/src/outbound.rs:139-178 | and so from any moment of any life of a sender that began with nothing queued |
| Outbound.NoAttemptBeforeItsTime | crates/hooks/src/outbound.rs:85-93 | over every interleaving of enqueues, ticks and the clock, every attempt is made at its offset from the enqueue or later, within the attempts allowed, and of an unfinished delivery as it stands in the queue |
| Outbound.TickIsARun | crates/hooks/src/outbound.rs:203-218 | the steps of an undisturbed tick, run to the end, attempt every due delivery exactly once and no other, as the tick does |
| Outbound.Sender.Enqueue | crates/hooks/src/outbound.rs:157-178 | appends a delivery due at once |
| Outbound.Sender.Tick | crates/hooks/src/outbound.rs:203-218 | every due delivery makes exactly one attempt and no other changes |
| Outbound.Sender.Attempt | crates/hooks/src/outbound.rs:220-286 | the delivery in the queue becomes what one attempt makes of it |
| Outbound.Sender.Replace | crates/hooks/src/outbound.rs:344-349 | replaces the delivery with that id in its place |
| Signatures.ParseStripe | crates/hooks/src/sign.rs:88-99 | for each key the last part counts, a last part that cannot be read undoing an earlier one that could |
| Signatures.VerifiesIff | crates/hooks/src/sign.rs:37-78 | a header verifies against any secret and body exactly when the messages hash alike: always its own, otherwise only on a collision |
| Signatures.StripeVerifiesIff | crates/hooks/src/sign.rs:67-72 | a Stripe header verifies exactly when it carries the hash of its own timestamp and the body, for every 64-bit timestamp |
| Signatures.StripePayloadInjective | crates/hooks/src/sign.rs:80-86 | what is signed tells timestamp and body apart |
| Signatures.MovedTimestampNeedsCollision | crates/hooks/src/sign.rs:80-86 | a header with its timestamp moved verifies only on a collision |
| Signatures.SchemesAreApart | crates/hooks/src/sign.rs:61-78 | neither scheme accepts the other's header |
| Signatures.HeadersAre | crates/hooks/src/sign.rs:40-58 | name and value of each header, spelled out |
| Signatures.StampedIff | crates/hooks/src/sign.rs:88-99 | what any header says: its last part with each key, the first readable as a number |
| Signatures.AcceptedIff | crates/hooks/src/sign.rs:61-118 | a header of whatever origin is accepted exactly when, letter case aside, it carries the hash of what it should sign; unsigned never |
| Text.ParsePrint | crates/hooks/src/sign.rs:93 | every 64-bit number reads back as it was printed |
| Text.HexRoundTrip | crates/hooks/src/sign.rs:101-118 | hexadecimal text reads back as the bytes it was made from |
| Text.HexDecodesIff | crates/hooks/src/sign.rs:112-116 | a text is read as some bytes exactly when it is, letter case aside, what is written for them |
| Text.ParseSigned | crates/hooks/src/sign.rs:93 | an optional sign and digits read as their value exactly when it has room in 64 bits |
| Text.ParseReadsOnlyNumbers | crates/hooks/src/sign.rs:93 | nothing else reads as a number |
| Text.TrimIs | crates/mail/src/allow.rs:49 | trimming takes away nothing but white space at the ends, and all of it |
| Text.LowerIs | crates/mail/src/allow.rs:52 | every capital becomes its small letter and nothing else changes |
| Hubs.HubOkKept | crates/ws/src/hub.rs:68-143 | no operation leaves an empty topic or a member with another's channel |
| Hubs.EachConnectionSeesItsOwn | crates/ws/src/hub.rs:68-143 | an operation changes a connection exactly as its topic, its id and its own channel say, whoever else there is |
| Hubs.JoinedConnectionSeesItsTopic | crates/ws/src/hub.rs:91-143 | from join to leave or kill a connection's channel gains exactly the bodies others published to its topic, in order, then a Close if killed |
| Hubs.ConnectionsAddUp | crates/ws/src/hub.rs:162-170 | connections are joins less effective leaves less killed members |
| HubServers.HubServer.Join | crates/ws/src/hub.rs:68-77 | a new channel, listed for that connection |
| HubServers.HubServer.Leave | crates/ws/src/hub.rs:81-89 | the member goes, and the topic with its last member |
| HubServers.HubServer.Publish | crates/ws/src/hub.rs:96-120 | pushes to every open member channel but the sender's, and counts those |
| HubServers.HubServer.Kill | crates/ws/src/hub.rs:128-143 | forgets the topic and pushes one Close to each member, counting those that took it |
| HubServers.HubServer.Connections | crates/ws/src/hub.rs:163-170 | the number of members over all topics |
| HubServers.AtMostOneClose | crates/ws/src/hub.rs:96-143 | over every interleaving of joins, leaves, hang-ups and the single sends of publishes and kills, no channel gets two Closes and no topic is stored empty |
| HubServers.EachSnapshotIsServedOnce | crates/ws/src/hub.rs:96-143 | over every such interleaving, a publish or kill that has come to its end has sent exactly once to each member it found and to nobody else |
| HubServers.ChannelsHoldWhatTheyTook | crates/ws/src/hub.rs:110-143 | and every channel holds exactly the messages of the sends it took, in their order: all of them as long as it is open |
| Conns.Turn | crates/ws/src/conn.rs:118-170 | one turn: the server's side first; a text or a Close written, an end noticed, or one inbound frame handled; what was done before stands |
| Conns.Pump | crates/ws/src/conn.rs:109-171 | what is written is the channel from the front, nothing skipped; inbound frames are handled in order, only with nothing waiting and the hub there, and never once a Close was pushed; every turn counts, none is idle with something to do or an end to notice; and why the loop ended |
| Conns.CloseIsLast | crates/ws/src/conn.rs:125-148 | texts word for word, in order without a hole, then at most one Close with code 1001 and its reason, then nothing |
| Conns.PublishedAreTheTexts | crates/ws/src/conn.rs:150-169 | what is fanned out is the texts among the frames handled, each once, as it came and in its place; the loop ends for the client's sake exactly on a close or a failed read, and on the first such frame |
| Clocks.Conservation | crates/core/src/clock.rs:74-106 | over any run without reset, time moves by exactly the advances, plus real time unfrozen, plus what repeated freezes swallow, and never back |
| Clocks.OrderlyConservation | crates/core/src/clock.rs:74-106 | when only a running clock is frozen, advances and real time unfrozen are all there is |
| Clocks.ConservationInMillis | crates/core/src/clock.rs:74-106 | in milliseconds as asked for and as they pass, for runs within 64 bits |
| Clocks.AdvanceInMillis | crates/core/src/clock.rs:82-85 | an advance moves time by exactly the milliseconds asked for, and by the largest 64-bit value when asked for more |
| Clocks.ElapseInMillis | crates/core/src/clock.rs:132-142 | a running clock moves with the timer, millisecond for millisecond, and a frozen one stands still |
| Clocks.OnlyAdvancesCanOverflow | crates/core/src/clock.rs:98-106 | from boot on, a run leaves 64 bits only if an advance does: a resume never underflows |
| Clocks.FreezeMovesTimeIff | crates/core/src/clock.rs:87-95 | a freeze moves `now` exactly when the clock is frozen already and real time has moved since |
| Clocks.AdvanceMovesTimeIff | crates/core/src/clock.rs:82-85 | an advance moves time by what was asked exactly when the offset has room, and back otherwise |
| Clocks.FreezeHalfwayIsInvisible | crates/core/src/clock.rs:89-95 | between the two stores a reader of a running clock sees the same time |
| Clocks.ResumeHalfwayRunsAhead | crates/core/src/clock.rs:98-106 | between swap and repayment a reader sees a time too late by the whole freeze; the resume as a whole does not move `now` |
| Clocks.LoadsApart | crates/core/src/clock.rs:74-76 | with any operations between its loads, `now` is the time at the second, off by the freeze when the flag is out of date, plus the advances and less what resumes take back before the third |
| Clocks.ResumeInsideReadRunsBehind | crates/core/src/clock.rs:132-138 | a resume between the last two loads makes `now` too early by the whole freeze |
| Clocks.AdvanceInsideResume | crates/core/src/clock.rs:98-106 | an advance that lands inside a resume is neither lost nor doubled |
| Clocks.FreezeInsideResume | crates/core/src/clock.rs:89-106 | a freeze that lands inside a resume makes the first freeze count as elapsed |
| Clocks.SoundStarts | crates/core/src/clock.rs:63-70 | boot, reset and restore leave a sound clock, and the first two show wall time |
| Clocks.ReadingsWholeMillisApart | crates/core/src/clock.rs:74-76 | any two readings of one clock lie whole milliseconds apart |
| Clocks.Clock.FrozenAt | crates/core/src/clock.rs:46-56 | a pinned clock is frozen from the start |
| Clocks.Clock.Restore | crates/core/src/clock.rs:63-70 | reproduces the offset, and freezes at once if asked |
| Clocks.Clock.AdvanceBy | crates/core/src/clock.rs:82-85 | `now` moves by exactly the milliseconds asked for while the offset has room; the offset is capped and wrapped to 64 bits, and nothing else changes |
| Clocks.Clock.Freeze | crates/core/src/clock.rs:89-95 | the elapsed time is captured and the flag set: a running clock shows this moment from then on |
| Clocks.Clock.Resume | crates/core/src/clock.rs:98-106 | nothing on a running clock; otherwise the flag is cleared and the time skipped repaid, so `now` does not move |
| Clocks.Clock.Reset | crates/core/src/clock.rs:119-123 | the clock is as at boot |
| ControlPlanes.InForce | crates/core/src/state.rs:59-81 | after any run, what is in force is the unchanged scenario under the mutations since the last reset, in order |
| ControlPlanes.PartsInForce | crates/core/src/state.rs:121-139 | over any run from boot, faults, telemetry and webhooks in force are each what the overlay carries, an empty list included, or else the scenario's; right after boot or reset all three are the scenario's |
| ControlPlanes.ResetIsBoot | crates/core/src/state.rs:74-81 | whatever came before, a reset leaves exactly the boot state, clock included |
| ControlPlanes.RestoreRebuilds | crates/core/src/snapshot.rs:72-96 | a process rebuilt from a capture has the same configuration, offset and freeze, resets to the captured scenario's boot, and shows the captured time exactly when the timers agree |
| ControlPlanes.AddsAreAtomicIff | crates/admin/src/lib.rs:814-827 | whatever operators do, adding, changing, clearing and resetting at once: the run is at every moment as if adding a rule were one step exactly when whoever writes finds the rules in force that it read |
| ControlPlanes.AddsAppendIff | crates/admin/src/lib.rs:814-820 | with nobody else at work, rules added by any number of callers at once are in the end appended without loss exactly when no write falls between another's read and write |
| ControlPlanes.ClearIsUndone | crates/admin/src/lib.rs:814-827 | a clear between the read and the write of a caller is undone by the write |
| ControlPlanes.TwoCallersLoseARule | crates/admin/src/lib.rs:814-820 | two callers that both read first: the first rule is lost |
| ControlPlanes.State.ApplyMutation | crates/core/src/state.rs:59-67 | the overlay is mutated, and part by part what it carries is in force, else the scenario's; the rest stays |
| ControlPlanes.State.Reset | crates/core/src/state.rs:74-81 | the boot state of the scenario, clock included |
| ControlPlanes.State.AddFault | crates/admin/src/lib.rs:814-820 | undisturbed, one rule is appended to whatever is in force and nothing else changes |
| ControlPlanes.State.Restore | server/src/main.rs:45-58 | booting from a snapshot gives the rebuilt state |
| Allowlists.ShowReadsBackIff | crates/mail/src/allow.rs:45-114 | whatever text a list was parsed from, showing and parsing it again gives it back exactly when it is not empty |
| Allowlists.ParseJoined | crates/mail/src/allow.rs:45-63 | a comma joins lists: the entries of any two texts follow one another |
| Allowlists.JoinedPermitsEither | crates/mail/src/allow.rs:82-95 | a comma-joined list permits exactly what either part permits |
| Allowlists.DomainPermitsIff | crates/mail/src/allow.rs:75-95 | a domain entry permits exactly the addresses whose part after the last `@` is that domain, trimmed and lower-cased |
| Allowlists.AddressPermitsIff | crates/mail/src/allow.rs:82-95 | an address entry permits exactly that address, and only if it has an `@` |
| Allowlists.AnyPermitsIff | crates/mail/src/allow.rs:82-95 | a list with `*` permits exactly what has an `@` |
| Allowlists.RefusesByDefault | crates/mail/src/allow.rs:17-22 | nothing without an `@` is permitted, and an empty list permits nothing |
| Streams.Tokenize | crates/stream/src/chunks.rs:57-67 | one token for each word, a space in front of all but the first |
| Streams.PiecesReproduceIff | crates/stream/src/chunks.rs:53-56 | joining the tokens gives the text back exactly when it was normalised |
| Streams.WordsSurvive | crates/stream/src/chunks.rs:57-67 | for every text the joined tokens have the same words in the same order |
| Streams.ChatPieces | crates/stream/src/chat.rs:170-186 | a role piece, one content piece for each token, a stop and the end marker |
| Streams.AssembledIs | crates/stream/src/chat.rs:170-186 | after any number of pieces a client has exactly the tokens among them |
| Streams.WholeReplyIff | crates/stream/src/chat.rs:170-186 | a client that got the whole reply has the text exactly when it was normalised |
| Streams.WaitUntil | crates/stream/src/chunks.rs:29-44 | returns at the first poll that shows the due time, the current one included |
| Streams.EvenlyDue | crates/stream/src/chunks.rs:46-49 | the first chunk is due at the start and each further one exactly the delay later |
| Streams.ChunksInTurn | crates/stream/src/scripted.rs:72-98 | no chunk goes out before the one in front of it, even on a clock that goes back |
| Streams.PlannedItems | crates/stream/src/scripted.rs:72-98 | chunks numbered from zero, and in place of the one to fail at the error, with nothing after it |
| Streams.Unfold | crates/stream/src/scripted.rs:72-98 | the chunks in order up to the failure, then one error and the end; each at the first poll from its predecessor's that shows its due time |
| Streams.EachChunkOnItsOwn | crates/stream/src/chunks.rs:46-49 | on a clock that does not go back, each chunk goes out at the first poll of all that shows its own due time |
| Streams.AdvanceFlushes | crates/stream/src/chunks.rs:28-44 | one poll that shows the last due time leaves no chunk for a later one |
| Streams.ReachedMeansEnded | crates/stream/src/chunks.rs:28-44 | a stream whose polls reach the last due time is not left waiting |

## Left out

- HTTP, Postgres, SMTP, SQLite and OTLP traffic, routers and extractors: plumbing over libraries.
- Spans, trace ids, the run id and metrics: no state machine reads them. Event and error texts are shortened.
- The hash itself, UUIDs, TOML and JSON syntax: abstract functions, fresh ids and values.
- Real time: tick intervals, timeouts and the close handshake's timer are steps that may come at any moment.
- Widths other than the clock's: backoff sums, delays and due times are unbounded integers, where the source casts u64
  milliseconds to i64. Reading `now` at the very edge of 64 bits or of the calendar is not modelled either.
- RedisStores.RedisStore.ClaimDue: Lua's limit on the number of arguments of `unpack` is not modelled.
- Json.RecodeIsIdentityOnPlain: the digits of a rounded number and negative zero are not modelled.
- `get` and `list` of both stores, and presence listing: reads with nothing to prove beside the rest.
- Outbound.NoAttemptBeforeItsTime: the clock only goes forward; a reset of the clock in mid-tick is not modelled.
- MemoryStores.MemoryStore.ClaimDue: the hash map is a map and its iteration order is left open.
- HubServers.HubServer.Publish: one channel is a sequence of what was pushed; memory limits of the unbounded channel and
  the per-frame events are not modelled.
- Conns.Pump: the arrivals before each turn are given as a list; which of two inbound frames arrives first is theirs.
- Bus.BroadcastBus.Emit: the ring holds exactly the capacity asked for; the library may keep more. Timestamps of events
  are not modelled, and closing of the bus does not occur.
- Outbound.Sender.Tick: bodies always serialise, and the event about each attempt is not modelled.
- ControlPlanes.RestoreRebuilds: a capture reads clock and overlay one after the other; another operator in between is
  not modelled. A capture is a value and not a file.
- FaultLayers.Resolve: rates, rolls and jitter are real numbers, not floats, and rolls are taken not to be negative.
- Signatures.VerifiesIff: comparison in constant time is a matter of timing and has no counterpart here.
- Streams.Unfold: the JSON around each chunk, the choice of the reply text, and a client that stops reading.
- The inbox ring, `traceparent` corruption, telemetry faults and URL encoding: easy next to the rest.
