# Xmip Storage, verified

A model in Dafny 4.11 of Xmip Storage, the durable store an integration cluster keeps its Messages in, and proofs of
what it promises: that a Publication is written once however often it is asked, that a crash loses whole operations
from the end and none told durable, that a queue loses and gains what a step names and nothing else, that two holders
never hold one Message, that audit records are moved between two databases once, and that a standby holds a prefix of
what its primary wrote.

`dafny verify dfyconfig.toml` checks all of it.

## What is modelled

The Rust is under `.src/`; it is what the model follows, line by line where a row names lines of it, and README.md is
what it is held to.

**The runtime database** is a map from keys to records (`Records`), a record that cannot be read being one of the
values (`Torn`), so every error path is there. The operations (`Queues`, `Holds`, `Origins`, `Steps`, `Operations`)
are given twice: as functions of the database, an answer and a plan of elementary steps taken whole or not at all, and
as the loops the writer runs over a `Batch` it updates in place (`Batches`, `Queues`, `Holds`, `Origins`, `Deciding`),
each method proved to come to what its function says, failures included. The laws are proved of the functions. `Claims`
and `Answers` say of each operation what it answers and leaves, read from the records it finds and not from its plan.

**One writer, group commit.** `Writers.Writer.Commit` decides a group in one batch, each operation on a stage of its
own, settles where each queue's firsts by due time are (`Due`, `Settling`) and writes; it is proved equal to running
the operations one after another (`Writers.Serial`). `Pipeline` is the state machine of batches written, answered,
handed to the sync thread, synced and lost in a crash. `Leading` is the state machine of the callers that lead batches.

**Runs.** `Once`, `Repeats`, `Turns`, `Leases`, `Conserved`, `Moves`, `Effects`, `Laid` and `Audits` are about every run of
every operation from an empty database, by any number of nodes in any order: `Once.RunAsked`. `Releasing`, `Counting`
and `Failing` are about what such runs let go of, count and leave marked, `Touching` about the queues a batch of one
writes places of. `Told` is what an answer that wrote nothing is worth in a run of batches, syncs and crashes.

**Other stores and nodes.** `Keeper` moves audit records to a second database with a crash between any two writes, and
`Keeping` runs it with the writer whose database it reads; `Encoding` and `Columns` keep an embedded engine's index
entries and read ranges of them, `Laid` the queues' own, and `Ranges` reads the queues from those.
`Clusters` is any number of Storage nodes of three databases each, writing, following, being copied whole, lost, started
again, stepping down and promoted in any order (`Copies`, `Bases` and `Standing` are its parts); `Followed`, `Histories`
and `Promotions` are what every step and every run of it keeps, and runs in which a promise fails; `Catching` is that a
standby comes to hold what its primary does. `Stopping` is a primary's orderly stop, and `Stopped` what its standby then
holds.

Methods that change a batch, a writer, a keeper's databases or the writes kept for standbys are imperative, as the
Rust is; their contracts give the whole new state. Concurrency is a relation over steps: a crash, another thread or
another node may act between any two.

## Where the code and what is said of it part

Each is stated with the exact condition under which the promise holds, or with the input that breaks it.

- *Every write but a Publication is waited on until durable* (README.md:202-203). A batch of answers alone, such as a
  Publication asked again, is told durable at once though what it reports may not be synced
  (.src/storage/commit.rs:238-263). `Told.PublicationAgainStands` and `Told.ReplayAgainStands`: what it reports is there
  after every crash exactly where its own record was synced, whatever else was not; `Told.AnswerAgainStands` for answers
  read from a claim. `Pipeline.RepeatToldDurableIsLost`: a run in which it is lost.
- *Asked again is `true`* and writes nothing (README.md:157-159). A hand-on that keeps its claim (`kept_for_nanos`) is
  done again when asked again. `Repeats.RepeatChangesNothing`: a repeat changes nothing exactly where the claim is
  ended. A Work Process's turn that moved an Instance on answers its repeat `false`. `Turns.TurnRepeats`: `true` exactly
  where its own writes leave what it is over as it was.
- *A queue loses what a step names* (README.md:100-116). A hand-on whose records close the last open Journey of an origin
  or a Send Port Group takes that holder's places out of queues it does not name (.src/storage/origin.rs:120-147).
  `Moves.HandOnConserves` says exactly what goes, `Releasing.LetsGoWhere` when, read from how many of the holder's
  Journeys are open; `Moves.UnnamedLeaves` is such a hand-on.
- *No step can count a holder's open Journeys wrong* (.src/storage/origin.rs:21-24). A Journey written alone is not
  counted, and one written under another holder than it was open for stays counted for the first.
  `Counting.RunsExact`: the count is exact throughout a run exactly where no operation does either;
  `Counting.LastLetsGo` is what then goes with the last Journey to close.
- *The count and the index never disagree with the Messages* (.src/storage/failed.rs:6-14). `Moves.HandOnAgrees`: they
  agree exactly where a hand-on that takes an indexed Message out of its place, moves it or lets go of it clears it too;
  `Moves.RunsAgree`: throughout a run exactly where every operation of it does; `Failing.LeavesUncleared` is a run to a
  hand-on that does not. *Marked failed waits for no retry* (README.md:97-98): `Moves.HandOnQuiet` and `Moves.RunsQuiet`,
  exactly where no hand-on leaves it waiting too; `Failing.FailsAndWaits` is a run to one that does.
- *What is due, waiting and failed are parts* of one index. `Due.PartsShareOut`: they overlap exactly where the clock
  has come to the last nanosecond a column keeps and a retry waits for that one.
- *All or nothing, one at a time* (README.md:149-151). A queue's record of its firsts that cannot be read fails the
  whole batch whose operations write a place of a Message held in that queue, operations that do not touch it included,
  and, where records are of their shapes, no other batch: `Writers.Writer.Commit`. Which queues those are is told before
  the batch is decided (`Writers.SerialTouches`), and they are those of the entries its steps put: `Touching.GroupTouched`.
- *A fence orders holders*. `Leases.FenceGrows`: exactly until its half that counts holders is full, or the epoch falls
  behind.
- *A record the keeper moved was written*. `Keeper.KeptSurvives`: exactly where its row was synced when it was moved;
  `Keeper.KeptOfALostWrite`: otherwise the audit database can hold a record of a write a crash has lost.
- *Each audit record is moved once* (README.md:116-119). One whose identifier another record has is forgotten and kept
  nowhere. `Keeper.MovedExactly`: none is lost exactly where no two records written have one identifier;
  `Keeper.Dropped` is the run.
- *A standby holds what its primary held* (.src/storage/standby/copies.rs:5-9). Right after a whole copy it follows and
  may hold half of a batch, `Promotions.FollowingTorn`, and then be promoted, its history going on from that:
  `Promotions.TornPromoted`. `Histories.StandbyHoldsPrefix`: once it has taken what was written while it was copied, it
  holds an exact prefix, in every run whose promotions keep to two conditions. One is that of `Histories.PromotionForks`,
  below; the other is that of `Histories.PromotionKeepsWhole`: a promotion ahead of its history keeps every copy of it
  one of the history exactly where the one promoted has taken all any of those copies had seen some of.
- *A former primary that comes back follows the new one, copied whole* (.src/storage/standby.rs:36-37), as one does that
  cannot take the writes on (README.md:242-245). A promotion goes on in the history it followed
  (.src/storage/standby/finding.rs:91-96), so a node further on than the one promoted, or an old primary that stepped down, follows on from its own number:
  `Promotions.FollowsAcrossAFork` is a standby that follows, has taken everything and holds another database.
  `Histories.PromotionForks`: a promotion can lead to two writes under one number exactly where another node of the
  history is a primary, is past the one promoted in a database, or was handed what is.
- *The standby holding most of the latest epoch is promoted* (README.md:240-241). What is compared is a sum over three
  databases, and an epoch is taken up before its writes. `Promotions.BestHoldsOther`: the best holds what another does
  exactly where both are of one history and neither is ahead of the other in one database and behind in another.
  `Promotions.BestLacksOthersWrites` and `Promotions.PromotedOfAnotherHistory`: runs in which it does not. A whole copy
  wipes the epoch a node keeps (.src/storage/standby/follow.rs:144-166), so one started again may count for less than one
  that has less: `Promotions.EpochForgotten`.
- *A stop waits for every operation under way* (README.md:250-252). It gives up after a timeout, and the server may be
  stopped without the node. `Stopping.EndedLosesNothing`: nothing is lost exactly where no operation is under way and
  none can begin. `Stopped.StoppedIsHeld`: where the stop waited, a settled standby that took all it was handed holds
  the primary's last database.
- An index holds a record's entries exactly as long as no other record shares one it gives up: `Columns.ReplacedExact`.
  No record of this Ledger does: `Columns.BatchesExact` for records each under the key it is named by,
  `Laid.EveryRunIndexed` for the entries of the queues.

## Taken for granted

- An engine's log loses no more than a suffix written since its last sync, and holds a batch whole or not at all; a
  sync makes durable everything written before it began (.src/engine.rs).
- The digest of a Publication and of an audit record is injective: two that are equal are of the same thing.
- For leases, the Storage node's clock never turns back; for refusing stale holders, its epochs do not either.
- A queue has had fewer than 2^64 - 1 entries, and a database fewer audit records.

## Model

| member | source | states |
|---|---|---|
| Batches.Batch.Get | README.md:212-213 | a read finds what its stage wrote, else what its batch wrote, else what the store holds (`.src/storage/commit/batch.rs:55-73`) |
| Batches.Batch.Absorb | README.md:212-213 | a decided operation's stage becomes part of its batch whole: the batch then reads as the stage did (`.src/storage/commit.rs:216-224`) |
| Queues.PlaceAtEnd | README.md:79-81 | an entry takes its queue's next place and is found by what it is about; nothing changes where it is there or remembered as taken out (`.src/storage/queue.rs:109-132`) |
| Queues.TakeOutEntry | README.md:81-88 | an entry leaves its place, counted out; an emptied queue's first becomes its next (`.src/storage/queue.rs:168-188`) |
| Holds.LetGo | README.md:102-103 | a Journey's place in a queue is let go of and forgotten, and nothing where it holds none (`.src/storage/hold.rs:234-261`) |
| Holds.MoveToTheEnd | README.md:104-106 | a Message moves to the end of its queue with what was kept beside it (`.src/storage/hold.rs:267-283`) |
| Holds.WaitUntil | README.md:109-113 | a held Message is given its retry's due time (`.src/storage/hold.rs:184-202`) |
| Holds.MarkPlace | README.md:97-98 | a place is marked failed and loses its due time, or unmarked; unchanged where it is so already (`.src/storage/hold.rs:208-228`) |
| Holds.EnterFailed | README.md:106-107 | a failed Message is marked at its place and entered once in its queue's index (`.src/storage/failed.rs:89-113`) |
| Holds.ClearFailed | README.md:107-109 | a Message leaves the index of failed Messages and its place is unmarked (`.src/storage/failed.rs:119-134`) |
| Origins.CountRecord | README.md:104 | a Journey's opening or closing moves its holders' counts; the last to close lets go of the places held for it (`.src/storage/origin.rs:79-147`) |
| Deciding.Grant | README.md:98-100 | where no claim on the Message is held, or its lease ran out, the claim asked for is taken until the lease from now, fenced as the next holder's, and stored; where one is held it is answered to its own token alone and nothing changes (`.src/storage/claim.rs:98-113`) |
| Deciding.Renew | README.md:100-101 | each claim still its holder's is renewed to the later deadline, the rest passed over, in order (`.src/storage/commit.rs:299-315`) |
| Deciding.DoHandOn | README.md:101-116 | a step handed on comes to its plan: false, true and nothing written, or every write of it, its failed Message entered with why and when (`.src/storage/claim.rs:158-212`) |
| Deciding.DoTurn | README.md:149-151 | a turn writes its Instances and keys with its hand-on, where all stand and are free, else nothing (`.src/storage/instance.rs:214-228`) |
| Deciding.DoPublish | README.md:61-69 | a Publication is written once by its Message, or answered as before, or refused as another (`.src/storage/publication.rs:81-130`) |
| Deciding.DoReplay | README.md:76-79 | a Replay takes its entry out and opens its Journeys, or says it was done before, or that there is none (`.src/storage/dead.rs:195-217`) |
| Deciding.DoDecide | README.md:193-196 | every operation, on its stage, comes to its plan: same answer, same database, same failure (`.src/storage/commit.rs:283-369`) |
| Claims.UnheldIsTaken | README.md:98-100 | asked for where none is held or the last lapsed, whoever held it, a claim is taken until the lease from now, stored and answered, and no other record changes (`.src/storage/claim.rs:98-113`) |
| Claims.HeldIsKept | README.md:98-100 | asked for where one is held, it is answered under its own token and to no other, and nothing changes (`.src/storage/claim.rs:98-113`) |
| Claims.RenewsStill | README.md:100-101 | every claim still its holder's is stored and answered until the lease from now, or as long as it was where later, in the order asked; every other record stays (`.src/storage/commit.rs:299-315`) |
| Claims.GivenBack | README.md:101 | given back by its holder a claim is stored as released; asked by another, nothing changes (`.src/storage/commit.rs:316-322`) |
| Answers.PublicationTakes | README.md:61-69 | each claim a Publication asks on a Message none holds is taken until the lease from now, stored and answered; on one held nothing changes, and it is answered to its own token (`.src/storage/publication.rs:115-124`) |
| Answers.HandOnIs | README.md:157-159 | a hand-on answers true exactly where the last claim is its own and was not given back; it takes effect exactly where that is held too, and stores the claim handed on or until as long as it is kept for; else nothing changes (`.src/storage/claim.rs:158-212`) |
| Answers.HandOnMakes | README.md:101-102 | each Message made reads back as made (`.src/storage/claim.rs:178-180`) |
| Answers.HandOnEnters | README.md:106-107 | the entry of any Message in any index of failed Messages after a hand-on: as it was, gone where cleared, or new with its queue, next place, held place, reason and moment (`.src/storage/failed.rs:89-113`) |
| Answers.HandOnLeavesStanding | README.md:106-113 | its own Message is left marked failed exactly where it was or fails there and is not cleared, and due when its wait says, else as it was where it stayed and was not marked now (`.src/storage/claim.rs:193-203`) |
| Answers.HandOnPlaces | README.md:102-106 | a Message queued waits as it was queued, neither failed nor due; moved to the end it waits with what was kept beside it (`.src/storage/claim.rs:184-192`) |
| Answers.TurnIs | README.md:149-152 | a turn answers true exactly where each Instance is at the turn its write is over, each key is free or its own, and its hand-on is its holder's; else nothing changes (`.src/storage/instance.rs:214-228`) |
| Answers.TurnDoes | README.md:149-152 | a turn that takes effect leaves the last record written of each Instance, each key with its last owner or let go, and the rest as its hand-on does (`.src/storage/instance.rs:161-180`) |
| Answers.TurnLetsGo | README.md:149-152 | an Instance and a key it does not write stay as they were, but the key goes where it belongs to the Instance it is let go of (`.src/storage/instance.rs:175-179`) |
| Answers.ReplayIs | README.md:75-79 | a Replay is done now where its entry is placed, was before where it is remembered taken out, and never where there is none; the last two write nothing (`.src/storage/dead.rs:195-217`) |
| Answers.WrittenAlone | README.md:116-117 | a Journey, a Message or an audit record written alone is written as it is, at the next number where audited, and nothing else (`.src/storage/commit.rs:285-288`) |
| Answers.ForgottenFirst | README.md:116-119 | the first audit record kept is forgotten where it is the one told moved, and none otherwise (`.src/storage/commit.rs:348-367`) |
| Writers.DecideAll | README.md:193-213 | a group decided in one batch, a stage to an operation, gives the state and the answers of one operation after another; a failed one contributes nothing (`.src/storage/commit.rs:207-228`) |
| Answers.GroupAnswers | README.md:193-213 | each of a group is answered what it is decided to be after those before it (`.src/storage/commit.rs:207-228`) |
| Writers.Writer.Commit | README.md:193-213 | the batch equals the serial run, every readable queue's firsts true, over records of their shapes exactly where the firsts can be read of each queue a place of which the operations, run in turn, write; else it writes nothing and answers each operation one failure (`.src/storage/commit.rs:202-277`) |
| Writers.Writer.ReadDue | README.md:88-98 | a part of a queue read from its kept firsts is what recomputing the whole queue finds (`.src/storage/due.rs:123-166`) |
| Shapes.DecideTyped | README.md:149-157 | over records of their shapes an operation fails in one case alone, a Message published before as another Publication, and leaves records of their shapes (`.src/storage/publication.rs:92-100`) |
| Due.Untouched | README.md:93-96 | one range of one more than a batch wrote finds the first entry the batch did not write, or shows there is none (`.src/storage/due.rs:258-269`) |
| Due.WrittenFirsts | README.md:92-96 | the retries are counted on exactly, and the first of each part the batch wrote found (`.src/storage/due.rs:189-208`) |
| Due.Settle | README.md:88-98 | each part's first is the true minimum after any mix of entries taken out, put in and moved, and the retry count is exact; it fails only where the next place is needed and cannot be read (`.src/storage/due.rs:188-243`) |
| Due.ReadReady | README.md:88-92 | what is due since held and the retries come due are read by two ranges as one ordered list (`.src/storage/due.rs:134-147`) |
| Due.ReadDue | README.md:88-98 | held entries, retry count and earliest retry not yet due equal recomputation from every entry, for any start, size and clock (`.src/storage/due.rs:123-166`) |
| Due.PartsShareOut | README.md:89-92 | each entry is in exactly one part, but for the last nanosecond of the clock (`.src/storage/due.rs:132-150`) |
| Due.PartsAre | README.md:88-92 | failed is what is marked; waiting, what is due after the clock; due, what waits for no retry or is due by then (`.src/storage/due.rs:132-150`) |
| Due.NextDueIs | README.md:92-94 | the next due time read is the earliest of the retries not yet due, and none where there is none (`.src/storage/due.rs:150-166`) |
| Settling.SettleQueue | README.md:93-96 | a queue the batch wrote is settled as the batch leaves it; never fails over readable records (`.src/storage/due.rs:188-243`) |
| Settling.SettleAll | README.md:93-96 | every queue the batch wrote is settled, or none where one cannot be; the others keep true firsts (`.src/storage/due.rs:174-245`) |
| Order.FewerFrom | README.md:80-84 | a read going on after the last it found finds the rest of the order (`.src/storage/due.rs:93-96`) |
| Order.PagesReadAll | README.md:80-84 | page after page gives every entry from a start once, in order (`.src/storage/due.rs:93-96`) |
| Paging.ReadPage | README.md:80-88 | a page is the first entries from a place in order, with the queue's true first and count, over any gaps (`.src/storage/queue.rs:208-248`) |
| Paging.PagedWhole | README.md:79-88 | paging from the first place yields every entry once, places strictly rising |
| Pipeline.CrashSafe | README.md:193-213 | in every run of batches, syncs and crashes the database is whole operations run in order up to a batch's end, holding every write told durable; every batch answered was told durable, or a sync of it failed; no batch is forgotten untold |
| Pipeline.EachIsTold | README.md:202-211 | of each batch written since the last start, its callers were told it is durable, or a sync of it failed, or it is yet to be synced (`.src/storage/commit/syncer.rs:73-82`) |
| Pipeline.SyncTells | README.md:202-211 | a sync that fails tells none durable; one that does not tells only what it made durable (`.src/storage/commit/syncer.rs:73-82`) |
| Pipeline.CrashRecovers | README.md:304-313 | the database read back after any crash is such a prefix and keeps every write told durable (`.src/storage/commit/syncer.rs:73-82`) |
| Told.PublicationAgainStands | README.md:202-211 | a Publication asked again and told durable is there after every crash if and only if its record was in what was synced (`.src/storage/commit.rs:238-263`) |
| Told.ReplayAgainStands | README.md:202-211 | so of a Replay asked again, by its entry remembered taken out (`.src/storage/commit.rs:238-263`) |
| Told.AnswerAgainStands | README.md:202-211 | an answer read from a claim's record stands in the history every crash leaves if and only if the record was so by the last batch synced (`.src/storage/commit.rs:238-263`) |
| Pipeline.RepeatToldDurableIsLost | README.md:202-211 | a run in which a repeated Publication is told durable and lost (`.src/storage/commit.rs:238-263`) |
| Leading.LeadSafe | README.md:196-201 | one caller leads at most; whenever a write waits one leads or the first waiting was told to; no leader finds the queue empty; none is answered twice (`.src/storage/commit/waiting.rs:68-139`) |
| Leading.StepWorks | README.md:196-201 | every step but an arrival leaves less to do (`.src/storage/commit/waiting.rs:95-124`) |
| Leading.SomeStep | README.md:196-201 | while a caller is unanswered some caller can go on (`.src/storage/commit/waiting.rs:78-88`) |
| Leading.Drains | README.md:196-201 | a fixed set of writes drains: runs are bounded, and at the end each is answered once, panicked batches included (`.src/storage/commit/waiting.rs:10-15`) |
| Leading.ToldAsDecided | README.md:196-202 | in every run a caller is told its write was decided exactly where its batch answered it so, and an error where the batch panicked first (`.src/storage/commit/waiting.rs:95-122`) |
| Leading.TakesLongestWaiting | README.md:193-201 | a leader takes the writes that have waited longest, in order, all of them or as many as a batch holds (`.src/storage/commit/waiting.rs:98-109`) |
| Once.PublishedOnce | README.md:61-69 | in every run a Message's Publication is written exactly as often as its record appears, at most once, and the record never changes (`.src/storage/publication.rs:81-130`) |
| Once.StillHeldAre | README.md:152-157 | a repeat answers exactly the asked claims still held under their tokens (`.src/storage/publication.rs:102-110`) |
| Once.AskedAgain | README.md:152-157 | after any run a Publication asked again changes nothing, and one asked as another is refused |
| Once.ReplayedOnce | README.md:75-79 | in every run a dead entry is replayed exactly as often as it becomes remembered taken out, at most once (`.src/storage/dead.rs:195-217`) |
| Once.ReplayedAgain | README.md:75-79 | after any run a Replay asked again answers that it was done before and changes nothing |
| Once.OnceAcrossCrashes | README.md:61-79 | the history that survives every run of batches, syncs and crashes publishes a Message and replays an entry once at most |
| Effects.PublishDoes | README.md:61-69 | a Publication that takes effect has written its Message, each Journey's last record, its Messages at fresh places or where they were, its dead entry, its own record and its audit record (`.src/storage/publication.rs:111-130`) |
| Effects.ReplayDoes | README.md:76-79 | a Replay that takes effect has taken its entry out for good, written its Journeys, queued their Messages at fresh places with what was asked, and audited (`.src/storage/dead.rs:195-217`) |
| Effects.PublishGrants | README.md:61-69 | the claims a Publication answers are of those asked under their tokens, and each is the one recorded, not lapsed (`.src/storage/publication.rs:115-124`) |
| Effects.HandOnDoes | README.md:101-104 | a hand-on that takes effect has written its result and the Journeys that go on, and no other Journey (`.src/storage/claim.rs:176-187`) |
| Effects.MessagesWrite | README.md:101-102 | the Messages a step made read back as made (`.src/storage/claim.rs:178-180`) |
| Repeats.ClaimKept | README.md:157-159 | no run of operations about other Messages changes the record of this one's claim (`.src/storage/claim.rs:135-150`) |
| Repeats.HandOnAnswers | README.md:157-159 | a hand-on answers true exactly where its claim is the last and was not given back, its lease lapsed or not, and changes nothing unless the claim is held (`.src/storage/claim.rs:158-175`) |
| Repeats.HandedOnAgain | README.md:157-159 | asked again after any run that left its ended claim recorded it answers true and changes nothing |
| Repeats.ReleasedStays | README.md:157-159 | after a mere release a hand-on answers false and changes nothing, after any run about other Messages |
| Repeats.RepeatChangesNothing | README.md:113-116 | repeats change nothing, whenever asked, if and only if the hand-on ends its claim (`.src/storage/claim.rs:204-209`) |
| Turns.TurnAnswers | README.md:149-152 | a turn answers whether its Instances stand and its hand-on is its holder's (`.src/storage/instance.rs:214-228`) |
| Turns.RivalTurnRefused | README.md:149-151 | of two turns of one Instance from one state, and of two that take one key for two Instances, never both write (`.src/storage/instance.rs:15-22`) |
| Turns.TurnRepeats | README.md:149-152 | a turn done answers its repeat true if and only if its own last writes leave each Instance at the turn it is over and each key with its own or let go; answered no, the repeat writes nothing (`.src/storage/instance.rs:120-143`) |
| Leases.LeaseExclusion | README.md:98-101 | over every run of a clock that never turns back, one holder at most has an unlapsed lease on a Message, and it is the one recorded |
| Leases.FenceGrows | README.md:98-101 | a later holder's fence is greater if and only if the epoch rose, or stayed with room left to count holders (`.src/storage/claim.rs:88-95`) |
| Leases.RunFence | README.md:98-101 | the fence kept on a Message never falls over a run whose epochs do not (`.src/storage/claim.rs:88-95`) |
| Leases.StaleRefused | README.md:98-101 | a holder whose fence was passed is refused, its hand-on and its release writing nothing, after any such run (`.src/storage/claim.rs:158-175`) |
| Conserved.StepRefines | README.md:79-88 | each step changes a queue's records as it changes the queue: who waits, where, failed and due (`.src/storage/queue.rs:105-200`) |
| Conserved.AfterSound | README.md:79-88 | every operation leaves every queue in order: entries and index one to one, between first and next, counted (`.src/storage/queue.rs:9-29`) |
| Conserved.EveryRunSound | README.md:79-88 | so after every run from an empty database (`.src/storage/queue.rs:9-29`) |
| Conserved.SoundInWidth | README.md:79-88 | so one group after another can be committed as long as no queue has had more entries than a u64 counts (`.src/storage/queue.rs:9-29`) |
| Moves.HandOnConserves | README.md:100-116 | a queue loses exactly what leaves and the places of holders whose last open Journey is closed, and gains exactly what is queued; every other Message keeps its place and all kept there; joiners come after all the queue held |
| Moves.UnnamedLeaves | README.md:104 | a hand-on that names no queue and takes a place out of one (`.src/storage/origin.rs:120-147`) |
| Releasing.LetsGoWhere | README.md:104 | a holder's place in a queue is let go of unnamed if and only if a record the hand-on writes closes the last open Journey of the holder, or it has none open and takes a place, and the queue is by then among the holder's (`.src/storage/origin.rs:79-147`) |
| Releasing.OpensLetGoWhere | README.md:61-79 | so of the records a Publication or a Replay opens (`.src/storage/origin.rs:79-147`) |
| Counting.RunsExact | README.md:101-104 | throughout a run a holder's count is how many Journeys are open for it, by their own records, if and only if each Journey written keeps the holder the one it replaces was open for, and one written alone is open for it as that one was (`.src/storage/origin.rs:21-24`) |
| Counting.LastLetsGo | README.md:101-104 | where a count is exact and stays so, an operation that leaves none of a holder's Journeys open lets go of its place in every queue it is counted in (`.src/storage/origin.rs:21-24`) |
| Moves.HandOnRequeues | README.md:104-106 | a Message moved to the end waits after every other (`.src/storage/hold.rs:263-283`) |
| Moves.HandOnAgrees | README.md:70-75 | index and mark stay in agreement if and only if a hand-on that takes out, moves or lets go of an indexed Message clears it (`.src/storage/failed.rs:6-14`) |
| Failing.LeavesUncleared | README.md:70-75 | a run to a hand-on that takes a failed Message out of its queue and leaves the index naming it (`.src/storage/claim.rs:176-212`) |
| Failing.FailsAndWaits | README.md:97-98 | a run to a hand-on that fails its Message and has it wait for a retry in the same queue (`.src/storage/claim.rs:176-212`) |
| Moves.RunsAgree | README.md:70-75 | throughout a run a Message is indexed failed exactly where it is marked failed, at its place, if and only if no operation takes it from its place, moves it or lets go of it uncleared |
| Moves.HandOnQuiet | README.md:97-98 | a failed Message keeps no due time if and only if the hand-on does not leave it waiting too (`.src/storage/hold.rs:204-228`) |
| Moves.RunsQuiet | README.md:97-98 | throughout a run a failed Message keeps no due time if and only if no hand-on or turn of it leaves it waiting where it is failed (`.src/storage/hold.rs:204-228`) |
| Audits.AfterInSequence | README.md:116-119 | each operation leaves the audit sequence without a gap, its own record at the next number (`.src/storage/commit.rs:325-367`) |
| Audits.RunInSequence | README.md:116-119 | so over every run: the keeper never finds a record gone (`.src/storage/commit.rs:342-367`) |
| Audits.KeeperFinds | README.md:116-119 | in every run of batches, syncs and crashes the records at the sequence's numbers are the rows the keeper's model has of what the surviving operations wrote (`.src/storage/commit.rs:325-367`) |
| Keeping.RunFollows | README.md:116-119 | whatever the writer and the keeper do in one run, the keeper reading the database as it is and asking it in a batch, is a run of the keeper's model over what the batches write (`.src/storage/embedded/keeper.rs:37-70`) |
| Keeping.MovedInOneRun | README.md:116-119 | in every run of batches, syncs, crashes and the keeper's moves every record the surviving operations wrote is in the runtime database at its number or kept as it was written, and the next to be moved is there, where each identifier is of one record |
| Keeper.KeepChains | README.md:132-138 | a record kept is linked after its writer's last, the head moved with it; every chain stays whole (`.src/storage/chain.rs:93-112`) |
| Keeper.ChainedOnce | README.md:132-133 | no record is in a chain twice, nor in two chains (`.src/storage/embedded/keeper.rs:46-63`) |
| Keeper.WalkAcceptsOnly | README.md:132-140 | a walk that ends at a chain's head accepts the sequence as kept and no other |
| Keeper.MovedOnce | README.md:116-119 | in every run of writing, moving and crashing each record is in the sequence at its number or kept as it was written, once, chained once, where each identifier is of one record |
| Keeper.MovedExactly | README.md:116-119 | no record of a set is lost in any run that writes of it if and only if no two of it have one identifier (`.src/storage/embedded/keeper.rs:37-70`) |
| Keeper.Dropped | README.md:116-119 | a run that writes two records under one identifier, moves both and keeps the second nowhere (`.src/storage/embedded/keeper.rs:46-63`) |
| Keeper.ChainsGrow | README.md:136-138 | a chain only grows, over restarts (`.src/storage/chain.rs:9-14`) |
| Keeper.KeptSurvives | README.md:116-119 | a kept record's write survives every crash if and only if its row was synced when moved (`.src/storage/embedded/keeper.rs:39-63`) |
| Keeper.KeptOfALostWrite | README.md:116-119 | a run that keeps a record of a write that is lost (`.src/storage/embedded/keeper.rs:39-63`) |
| Keeper.Node.Keep | README.md:117-119 | undisturbed, the oldest records up to the number asked are moved in order, each kept and chained (`.src/storage/embedded/keeper.rs:37-70`) |
| Columns.EntriesOf | README.md:179-182 | a record's index entries: one for each index whose columns and flag it has (`.src/storage/columns.rs:235-257`) |
| Columns.WhenWritten | README.md:179-183 | over any batch that writes a record it keeps the time it was first written, or has now where it is new, and was last written now (`.src/storage/columns.rs:124-150`) |
| Columns.ReplacedExact | README.md:179-183 | after a record is replaced or removed the index is exact if and only if no other record had an entry given up (`.src/storage/columns.rs:204-229`) |
| Columns.Written | README.md:179-183 | a batch's records stamped, and the entries written with them: applied, they are each change's entries replaced in turn (`.src/storage/columns.rs:195-231`) |
| Columns.OwnNamesAlone | README.md:179-183 | records named apart, by identifier and the columns each index has, never give up an entry of another's (`.src/storage/columns.rs:235-257`) |
| Columns.WrittenExact | README.md:179-183 | so after one batch that puts no record named as another is, whatever replaces whatever within it (`.src/storage/columns.rs:195-231`) |
| Columns.BatchesExact | README.md:179-183 | after any batches of writes, replacements and removals of records each under the key it is named by the index is exact (`.src/storage/columns.rs:204-229`) |
| Laid.StepComes | README.md:79-88 | each step puts entries and takes them out one after another, never two of a queue about one Message at any time (`.src/storage/queue.rs:105-188`) |
| Laid.EveryRunIndexed | README.md:88-98 | in every run of operations, in whatever batches, the queues' indexes hold an entry of each entry the queues hold and no other (`.src/storage/row.rs:130-200`) |
| Ranges.DueInOrder | README.md:88-92 | the keys of a part of a queue sort as when each is due, then as their places (`.src/storage/columns/ordered.rs:48-91`) |
| Ranges.EveryRunDue | README.md:88-98 | after every run a range of the index of when each is due, from any position on and up to any time, is what `Due` reads of that part of the queue, in its order, each naming its Message (`.src/storage/due.rs:271-292`) |
| Ranges.EveryRunPaged | README.md:79-88 | after every run a range of the index by place of what waits, is dead or failed is the page of the queue `Paging` reads (`.src/storage/columns/ordered.rs:23-36`) |
| Columns.QueryIsFilter | README.md:159-161 | a range of an exact index holds an entry of each record asked for and of no other (`.src/storage/columns.rs:259-324`) |
| Columns.QueryInOrder | README.md:159-161 | in order of time, then identifier (`.src/storage/columns.rs:259-280`) |
| Columns.QueryAnswers | README.md:159-161 | a query answers the records asked for sorted by time and identifier, up to as many as asked, or the newest of them first (`.src/storage/columns.rs:267-280`) |
| Encoding.BigEndianSorts | README.md:179-182 | numbers written big-endian sort as they count (`.src/storage/columns.rs:333-341`) |
| Encoding.EncodedAllEnds | README.md:179-182 | values written one after another are told apart (`.src/storage/columns.rs:333-347`) |
| Copies.Kept.Keep | README.md:241-242 | a write is kept under the next number; the oldest are let go of only until what is kept fits the bytes allowed, the last let go of no longer fitting, itself never (`.src/storage/standby/copies.rs:46-55`) |
| Copies.Kept.Since | README.md:241-244 | what follows a number is handed on in order with none left out, one at least and as many as come to the bytes asked, or refused where let go of (`.src/storage/standby/copies.rs:208-227`) |
| Copies.Numbered.Follows | README.md:242-245 | whether a standby of a history can go on from its number in every database, and the first reason why not (`.src/storage/standby/copies.rs:235-250`) |
| Bases.SettledHolds | README.md:243-246 | a copy read page by page while writes go on is made whole by those writes (`.src/storage/standby/ship.rs:115-132`) |
| Followed.StepKeeps | README.md:236-246 | every step of a cluster leaves each connection with its primary's writes and each copy of what its primary held (`.src/storage/standby/follow.rs:45-113`) |
| Catching.GetsLevel | README.md:241-246 | from any state in which a standby may ask its primary to follow, its own steps alone bring it as many writes of each database as the primary has, the primary's own where what it had was; copied whole, its databases are the primary's (`.src/storage/standby/follow.rs:45-113`) |
| Histories.StandbyHoldsPrefix | README.md:241-246 | in every run of a cluster whose promotions go on from a whole node no other is past, a settled node holds exactly what its history began with and its first writes |
| Histories.FurtherHoldsMore | README.md:238-246 | in every such run, of two nodes of a history the further on in a database has the other's writes and more, and settled its database is the other's with those |
| Histories.PromotionForks | README.md:238-242 | a promotion never leads to two writes under one number if and only if no other node of its history is a primary, is past it in a database or was handed what is (`.src/storage/standby/finding.rs:85-115`) |
| Histories.PromotionKeepsWhole | README.md:241-246 | a promotion of a node no other of its history is past keeps every copy of the history one of its writes if and only if the one promoted has taken all any of those copies, its own included, had seen some of (`.src/storage/standby/finding.rs:85-115`) |
| Promotions.FollowingTorn | README.md:243-246 | a run to a standby that follows, no copy under way, and holds half of one write (`.src/storage/standby/ship.rs:115-132`) |
| Promotions.TornPromoted | README.md:239-246 | a run on from there to that standby promoted: its history goes on from half of one write, a database no primary of it ever was (`.src/storage/standby/finding.rs:85-104`) |
| Standing.Promotes | README.md:238-241 | a node is promoted exactly where none of those that answered is of a later epoch, or of its epoch with more, or with as much and listed first, and each before it answered or it heard none long enough (`.src/storage/standby/finding.rs:61-79`) |
| Standing.OneBest | README.md:238-241 | of one set of answers one node is the best (`.src/storage/standby/finding.rs:68-76`) |
| Standing.PromotedIsFirst | README.md:239-241 | of those that answered and are not being copied none is of a later epoch than the one promoted, none of its epoch holds more, and of equals it is the first listed (`.src/storage/standby/finding.rs:68-76`) |
| Promotions.PromotionIsLater | README.md:239-241 | a node promoted is of a later epoch than any it asked, and keeps it (`.src/storage/standby/finding.rs:45-51`) |
| Promotions.BestHoldsOther | README.md:239-241 | the best has every write another of those that answered has if and only if both are of one history and, of one epoch, they are not crossed, or, of an earlier, that one is ahead in no database (`.src/storage/standby/shipped.rs:37-42`) |
| Promotions.PromotedHoldsAll | README.md:239-241 | the one promoted holds every candidate's writes if and only if each is of its history and in step with it (`.src/storage/standby/finding.rs:61-79`) |
| Promotions.BestLacksOthersWrites | README.md:239-241 | a run to two standbys of one history of which the best is promoted and lacks the other's writes (`.src/storage/standby/shipped.rs:37-42`) |
| Promotions.PromotedOfAnotherHistory | README.md:239-241 | a run to a node that took up an epoch without its writes and is promoted over one that has them (`.src/storage/standby/finding.rs:36-43`) |
| Promotions.FollowsAcrossAFork | README.md:242-246 | a run to a standby that follows, has taken as many writes as its primary wrote, and holds another database (`.src/storage/standby/finding.rs:85-104`) |
| Promotions.EpochForgotten | README.md:239-241 | a run to a standby started again after its whole copy over which one that has less is promoted (`.src/storage/standby/follow.rs:144-166`) |
| Stopping.StopLosesNothing | README.md:250-252 | from any primary serving or stopping in order, in every interleaving, one that waited out its operations has handed on every write of every database it ever takes, in order, when the connection ends |
| Stopped.ShipsOn | README.md:250-252 | whatever a primary writes and hands on as it is stopped is a run of the cluster with the same writes and the same handed (`.src/storage/standby/ship.rs:41-95`) |
| Stopped.StoppedIsHeld | README.md:250-252 | after a stop that waited, a settled standby that took all it was handed holds each database as the primary last held it, in every run of a cluster whose promotions go on from a whole node no other is past |
| Stopping.EndedLosesNothing | README.md:250-252 | after the connection ends with all handed on nothing is ever lost if and only if no operation is under way and none can begin (`.src/storage/standby.rs:257-278`) |

## Left out

- AES-GCM, HMAC, HKDF, key wrapping, TLS, ALPN, framing and thread-per-connection serving: external primitives and plumbing; a store is a faithful keyed map.
- RocksDB and SQLite internals, SQL dialects, scripts, schema upgrade, roles and connection strings.
- Streams and their chunks, audit record bodies in chunks, UUIDv7 and name-based identifiers, the codec's forms: a body is opaque.
- The client's round robin, timeouts and pass-over; the processor time a batch is charged.
- Times stamped on held Messages (`held_unix_nanos`); `Columns` models stamping itself, with the row's times.
- Reading a record once per batch (`Batch::kept`): the store does not change under its one writer.
- u64 overflow of places, counts and audit numbers; i128 and u64 saturation of times and of fences is modelled.
- A batch the engine refuses to write: every operation of it is answered so, and nothing of it is kept.
- A read of a queue's parts is taken at one state of the store; the code reads places, index and entries one after another.
- u32 overflow of a holder's count of open Journeys (`origin.rs`).
- Due.Settle: for queues whose places are below the last a u64 holds, because that place stands for no retry.
- Columns.QueryIsFilter: for a query of every column of its index, or of all but a last that is a time, as every question of `query.rs` is.
- Columns.QueryAnswers: the same; the ranges of two columns a queue's parts and pages are read by are in `Ranges`.
- Ranges.EveryRunDue: of identifiers, places and times of their columns' widths, as `Laid.EveryRunIndexed` is.
- Laid.EveryRunIndexed: the rows of what waits, is dead and failed, but not the index of dead Messages by when each was queued (number 10), which is in a dead Message's opaque body; the rows of Journeys and Messages are opaque and fall under `Columns.BatchesExact`.
- Histories.StandbyHoldsPrefix: over runs whose promotions in a history go on from a node that is whole and that no other is past, because otherwise it is false: `Promotions.FollowsAcrossAFork` and `Promotions.TornPromoted` are runs in which it is, `Histories.PromotionForks` and `Histories.PromotionKeepsWhole` the exact conditions.
- Stopped.StoppedIsHeld: of the same runs.
- A primary that is stopping answers that it is none (`standby/served.rs`); in `Clusters` a node answers as what it is until it steps down or is gone.
- A primary that steps down in the middle of a whole copy it hands on, or is promoted again between two sends of one connection: in `Clusters` its connections are over when its term is; the code looks at the next turn.
- What the other Storage nodes answer is taken at one state; the code asks one after another.
- What a whole copy cut short has left in a standby's databases: nothing reads it before they are wiped.
- A crash between the two last writes of a whole copy's end, its positions and that it is no longer under way: one step in `Clusters`.
- Numbers begin at 0, not at 1.
- Where each queue's firsts are is kept beside the database in `Writers`; the code writes it in the batch, so a crash keeps it with the batch.
- Turns.TurnRepeats: of a repeat asked before any other operation changes its Instances, keys or claim.
- Leases.LeaseExclusion: what a holder knows is what it was answered; a holder whose answer was lost asks again under its token.
- Whether the network partitions, and so whether two primaries coexist: nothing here says they cannot.
