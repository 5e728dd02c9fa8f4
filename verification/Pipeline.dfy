/** Group commit with its syncs on a thread of their own (`commit.rs`, `commit/syncer.rs`,
    `durable.rs`): batches decided, written and answered, synced after, and a crash that takes
    what no sync has made durable. The engine's log is taken to lose no more than a suffix
    written since its last sync, and to hold a batch whole or not at all. */
module Pipeline {
  import opened Wrappers
  import opened Records
  import opened Batches
  import opened Steps
  import opened Operations
  import opened Writers

  datatype Group = Group(ops: seq<Op>, moment: Moment)

  /** A batch as the engine's log holds it: what it writes, and the audit sequence's next. */
  datatype Logged = Logged(group: Group, written: map<Key, Option<Value>>, next: nat)

  const EMPTY := Ledger(map[], 0)

  /** The database read back from the log. */
  function Replayed(log: seq<Logged>): Ledger {
    if log == [] then EMPTY
    else
      var last := log[|log| - 1];
      Ledger(Overlay(Replayed(log[..|log| - 1]).db, last.written), last.next)
  }

  /** Whole operations run one after another, in the order they were decided. */
  function Decided(log: seq<Logged>): Ledger {
    if log == [] then EMPTY
    else
      var last := log[|log| - 1];
      Serial(Decided(log[..|log| - 1]), last.group.ops, last.group.moment).after
  }

  /** A caller told its write is durable: the log as its answer reported it, its own batch last
      where that wrote anything. */
  datatype Promise = Promise(log: seq<Logged>, wrote: bool)

  datatype System = System(
    // The writer's: what the engine reads back, and the batch answered but not handed over.
    live: Ledger,
    log: seq<Logged>,
    handing: Option<nat>,
    // The sync thread's: what it was handed, what it took, the log its sync began at.
    inbox: seq<nat>,
    taken: seq<nat>,
    syncing: Option<nat>,
    // The engine's: how much of the log a crash keeps.
    durable: nat,
    // Since it last started: the first batch of this start, and the batches answered.
    base: nat,
    answered: set<nat>,
    promises: set<Promise>)

  const STARTED := System(EMPTY, [], None, [], [], None, 0, 0, {}, {})

  datatype Event =
    | WriteBatch(batch: Logged)      // decided, written unsynced and answered
    | NothingWritten(group: Group)   // decided, all of it answers alone: answered as durable
    | HandOver                       // the batch handed to the sync thread
    | TakeInbox                      // all handed over, taken by the sync thread
    | BeginSync
    | EndSync(ok: bool)
    | Flush(to: nat)                 // the engine wrote its log out by itself
    | Crash(kept: nat)

  ghost predicate Enabled(s: System, event: Event) {
    match event
    case WriteBatch(batch) =>
      var ran := Serial(s.live, batch.group.ops, batch.group.moment).after;
      s.handing.None? && Overlay(s.live.db, batch.written) == ran.db && batch.next == ran.next
    case NothingWritten(group) =>
      s.handing.None? && Serial(s.live, group.ops, group.moment).after == s.live
    case HandOver => s.handing.Some?
    case TakeInbox => s.inbox != [] && s.taken == [] && s.syncing.None?
    case BeginSync => s.taken != [] && s.syncing.None?
    case EndSync(_) => s.syncing.Some?
    case Flush(to) => s.durable <= to <= |s.log|
    case Crash(kept) => s.durable <= kept <= |s.log|
  }

  function ToldOf(s: System): set<Promise> {
    set i | i in s.taken && i < |s.log| :: Promise(s.log[..i + 1], true)
  }

  function InSeq(s: seq<nat>): set<nat> {
    set i | i in s
  }

  function Next(s: System, event: Event): System
    requires Enabled(s, event)
  {
    match event
    case WriteBatch(batch) =>
      s.(live := Ledger(Overlay(s.live.db, batch.written), batch.next),
         log := s.log + [batch], handing := Some(|s.log|))
    case NothingWritten(_) => s.(promises := s.promises + {Promise(s.log, false)})
    case HandOver => s.(inbox := s.inbox + [s.handing.value], handing := None)
    case TakeInbox => s.(taken := s.inbox, inbox := [])
    case BeginSync => s.(syncing := Some(|s.log|))
    case EndSync(ok) =>
      if ok then
        s.(durable := Max(s.durable, s.syncing.value), promises := s.promises + ToldOf(s),
           answered := s.answered + InSeq(s.taken), taken := [], syncing := None)
      else s.(answered := s.answered + InSeq(s.taken), taken := [], syncing := None)
    case Flush(to) => s.(durable := to)
    case Crash(kept) =>
      System(Replayed(s.log[..kept]), s.log[..kept], None, [], [], None, kept, kept, {}, s.promises)
  }

  ghost predicate CanRun(s: System, events: seq<Event>)
    decreases |events|
  {
    events == [] || (Enabled(s, events[0]) && CanRun(Next(s, events[0]), events[1..]))
  }

  function Run(s: System, events: seq<Event>): System
    requires CanRun(s, events)
    decreases |events|
  {
    if events == [] then s else Run(Next(s, events[0]), events[1..])
  }

  /** Each batch of this start is with someone who will tell it, or was told. */
  ghost predicate NoneForgotten(s: System) {
    forall i | s.base <= i < |s.log| ::
      i in s.answered || i in s.taken || i in s.inbox || s.handing == Some(i)
  }

  ghost predicate Holds(s: System) {
    && s.live == Replayed(s.log) == Decided(s.log)
    && s.base <= s.durable <= |s.log|
    && (forall i | i in s.inbox :: i < |s.log|)
    && (forall i | i in s.taken :: i < |s.log|)
    && (s.handing.Some? ==> s.handing.value < |s.log|)
    && (s.syncing.Some? ==> s.syncing.value <= |s.log| && forall i | i in s.taken :: i < s.syncing.value)
    && NoneForgotten(s)
    && (forall p | p in s.promises && p.wrote :: |p.log| <= s.durable && p.log <= s.log)
  }

  lemma {:induction false} PrefixDecided(log: seq<Logged>, kept: nat)
    requires kept <= |log| && forall n | 0 <= n <= |log| :: Replayed(log[..n]) == Decided(log[..n])
    ensures forall n | 0 <= n <= kept :: Replayed(log[..kept][..n]) == Decided(log[..kept][..n])
  {
    forall n | 0 <= n <= kept ensures log[..kept][..n] == log[..n] {
    }
  }

  /** Every boundary of the log reads back as what was decided up to it. */
  ghost predicate Boundaries(s: System) {
    forall n | 0 <= n <= |s.log| :: Replayed(s.log[..n]) == Decided(s.log[..n])
  }

  lemma BoundariesKept(s: System, event: Event)
    requires Holds(s) && Boundaries(s) && Enabled(s, event)
    ensures Boundaries(Next(s, event))
    ensures Next(s, event).live == Replayed(Next(s, event).log) == Decided(Next(s, event).log)
  {
    var t := Next(s, event);
    match event {
      case WriteBatch(batch) =>
        assert t.log[..|s.log|] == s.log;
        forall n | 0 <= n <= |t.log| ensures Replayed(t.log[..n]) == Decided(t.log[..n]) {
          if n <= |s.log| {
            assert t.log[..n] == s.log[..n];
          } else {
            assert t.log[..n] == t.log;
          }
        }
      case Crash(kept) =>
        PrefixDecided(s.log, kept);
      case _ =>
    }
  }

  lemma NoneForgottenKept(s: System, event: Event)
    requires Holds(s) && Enabled(s, event)
    ensures NoneForgotten(Next(s, event))
  {
  }

  lemma PromisesKept(s: System, event: Event)
    requires Holds(s) && Enabled(s, event)
    ensures var t := Next(s, event);
            forall p | p in t.promises && p.wrote :: |p.log| <= t.durable && p.log <= t.log
  {
    var t := Next(s, event);
    forall p | p in t.promises && p.wrote ensures |p.log| <= t.durable && p.log <= t.log {
      if p in s.promises {
        assert p.log <= s.log;
      } else {
        assert event == EndSync(true) && p in ToldOf(s);
      }
    }
  }

  lemma StepHolds(s: System, event: Event)
    requires Holds(s) && Boundaries(s) && Enabled(s, event)
    ensures Holds(Next(s, event)) && Boundaries(Next(s, event))
  {
    BoundariesKept(s, event);
    NoneForgottenKept(s, event);
    PromisesKept(s, event);
  }

  lemma {:induction false} RunHolds(s: System, events: seq<Event>)
    requires Holds(s) && Boundaries(s) && CanRun(s, events)
    ensures Holds(Run(s, events)) && Boundaries(Run(s, events))
    decreases |events|
  {
    if events != [] {
      StepHolds(s, events[0]);
      RunHolds(Next(s, events[0]), events[1..]);
    }
  }

  // ---- Every batch answered was told durable, or that its sync failed. ----

  /** Batch `i` was with the sync thread when a sync failed, `k` events in, and nothing crashed since. */
  ghost predicate SyncFailed(events: seq<Event>, k: nat, i: nat) {
    && k < |events| && events[k] == EndSync(false)
    && CanRun(STARTED, events[..k]) && i in Run(STARTED, events[..k]).taken
    && forall m | k < m < |events| :: !events[m].Crash?
  }

  ghost predicate ToldOrFailed(events: seq<Event>, s: System, i: nat) {
    i < |s.log| && (Promise(s.log[..i + 1], true) in s.promises || exists k :: SyncFailed(events, k, i))
  }

  lemma {:induction false} RunLast(s: System, events: seq<Event>)
    requires CanRun(s, events) && events != []
    ensures var before := events[..|events| - 1];
            && CanRun(s, before) && Enabled(Run(s, before), events[|events| - 1])
            && Run(s, events) == Next(Run(s, before), events[|events| - 1])
    decreases |events|
  {
    if |events| > 1 {
      RunLast(Next(s, events[0]), events[1..]);
      assert events[..|events| - 1][1..] == events[1..][..|events| - 2];
    } else {
      assert events[..0] == [];
    }
  }

  lemma FailedBefore(events: seq<Event>, k: nat, i: nat)
    requires events != [] && !events[|events| - 1].Crash? && SyncFailed(events[..|events| - 1], k, i)
    ensures SyncFailed(events, k, i)
  {
    var before := events[..|events| - 1];
    assert before[..k] == events[..k] && before[k] == events[k];
    assert forall m | k < m < |events| - 1 :: events[m] == before[m];
  }

  lemma {:induction false} AnsweredAreTold(events: seq<Event>)
    requires CanRun(STARTED, events)
    ensures forall i | i in Run(STARTED, events).answered :: ToldOrFailed(events, Run(STARTED, events), i)
    decreases |events|
  {
    if events != [] {
      var n := |events| - 1;
      var before, last := events[..n], events[n];
      RunLast(STARTED, events);
      AnsweredAreTold(before);
      RunHolds(STARTED, before);
      var s, t := Run(STARTED, before), Run(STARTED, events);
      hide Run, CanRun, Boundaries, Serial, SyncFailed;
      forall i | i in t.answered ensures ToldOrFailed(events, t, i) {
        if i in s.answered {
          assert ToldOrFailed(before, s, i) && t.log[..i + 1] == s.log[..i + 1];
          if k :| SyncFailed(before, k, i) {
            FailedBefore(events, k, i);
          }
        } else {
          assert last.EndSync? && i in s.taken;
          if last == EndSync(true) {
            assert Promise(s.log[..i + 1], true) in ToldOf(s);
          } else {
            FailsNow(events, i);
          }
        }
      }
    }
  }

  lemma FailsNow(events: seq<Event>, i: nat)
    requires CanRun(STARTED, events) && events != [] && events[|events| - 1] == EndSync(false)
    requires CanRun(STARTED, events[..|events| - 1]) && i in Run(STARTED, events[..|events| - 1]).taken
    ensures SyncFailed(events, |events| - 1, i)
  {
  }

  // ---- What a crash leaves. ----

  /** In every run of deciding, writing, syncing and crashing, what is read back is whole
      operations run in the order they were decided up to a batch's end, every write told durable
      that wrote anything is among them, and every batch answered was told durable but where its
      sync failed. */
  lemma CrashSafe(events: seq<Event>)
    requires CanRun(STARTED, events)
    ensures var s := Run(STARTED, events);
            && s.live == Decided(s.log)
            && (forall p | p in s.promises && p.wrote :: p.log <= s.log)
            && NoneForgotten(s)
            && (forall i | i in s.answered :: ToldOrFailed(events, s, i))
  {
    RunHolds(STARTED, events);
    AnsweredAreTold(events);
  }

  /** And whatever crashes next keeps it. */
  lemma CrashRecovers(events: seq<Event>, kept: nat)
    requires CanRun(STARTED, events)
    requires Enabled(Run(STARTED, events), Crash(kept))
    ensures var s := Run(STARTED, events); var t := Next(s, Crash(kept));
            && t.live == Decided(s.log[..kept])
            && (forall p | p in s.promises && p.wrote :: p.log <= s.log[..kept])
  {
    RunHolds(STARTED, events);
    StepHolds(Run(STARTED, events), Crash(kept));
  }

  /** Of every batch written since the last start: its callers were told it is durable, or its sync
      failed, or it is yet to be synced. */
  lemma EachIsTold(events: seq<Event>, i: nat)
    requires CanRun(STARTED, events) && Run(STARTED, events).base <= i < |Run(STARTED, events).log|
    ensures var s := Run(STARTED, events);
            || Promise(s.log[..i + 1], true) in s.promises
            || (exists k :: SyncFailed(events, k, i))
            || i in s.taken || i in s.inbox || s.handing == Some(i)
  {
    RunHolds(STARTED, events);
    AnsweredAreTold(events);
    hide Run, CanRun, Boundaries, SyncFailed;
    assert i in Run(STARTED, events).answered ==> ToldOrFailed(events, Run(STARTED, events), i);
  }

  /** A sync tells none durable but where it did not fail, and then what it has made so. */
  lemma SyncTells(s: System, ok: bool)
    requires Holds(s) && Enabled(s, EndSync(ok))
    ensures var t := Next(s, EndSync(ok));
            && s.promises <= t.promises
            && (forall p | p in t.promises && p !in s.promises ::
                  ok && |p.log| <= t.durable && exists i :: i in s.taken && p == Promise(s.log[..i + 1], true))
            && (!ok ==> t.durable == s.durable)
  {
    var t := Next(s, EndSync(ok));
    forall p | p in t.promises && p !in s.promises
      ensures ok && |p.log| <= t.durable && exists i :: i in s.taken && p == Promise(s.log[..i + 1], true)
    {
      assert p in ToldOf(s);
      var i :| i in s.taken && i < |s.log| && p == Promise(s.log[..i + 1], true);
      assert i in s.taken && i < s.syncing.value;
    }
  }

  // ---- An answer that wrote nothing is told durable at once. ----

  const PUBLISHED := Publication(MessageRecord(1, ""), [], [], None, AuditEntry(1, 1, ""), [], 0)
  const ASKED := Group([Publishing(PUBLISHED)], Moment(0, 0))
  function Wrote(): map<Key, Option<Value>> {
    map[MessageAt(1) := Some(MessageV(PUBLISHED.message)),
        PublishedAt(1) := Some(PublishedV(PUBLISHED)),
        AuditAt(0) := Some(AuditV(PUBLISHED.audit))]
  }

  function WrittenDb(): Db {
    map[MessageAt(1) := MessageV(PUBLISHED.message),
        PublishedAt(1) := PublishedV(PUBLISHED), AuditAt(0) := AuditV(PUBLISHED.audit)]
  }

  lemma PublishedRuns()
    ensures PublishPlan(map[], 0, PUBLISHED, ASKED.moment)
         == Ok(Plan(Claims([]), PublishSteps(PUBLISHED, 0, ASKED.moment, 0), 1))
    ensures PublishSteps(PUBLISHED, 0, ASKED.moment, 0)
         == [PutMessage(PUBLISHED.message), PutPublished(PUBLISHED), PutAudit(0, PUBLISHED.audit)]
  {
    assert PublicationSteps(PUBLISHED) == [PutMessage(PUBLISHED.message)];
    assert PublicationSteps(PUBLISHED)[1..] == [];
    var published: Db := map[MessageAt(1) := MessageV(PUBLISHED.message)];
    assert RunSteps(published, []) == Ok(published);
    assert RunSteps(map[], PublicationSteps(PUBLISHED)) == Ok(published);
  }

  lemma StepsRun()
    ensures RunSteps(map[], [PutMessage(PUBLISHED.message), PutPublished(PUBLISHED), PutAudit(0, PUBLISHED.audit)])
         == Ok(WrittenDb())
  {
    var last := [PutAudit(0, PUBLISHED.audit)];
    var rest := [PutPublished(PUBLISHED), PutAudit(0, PUBLISHED.audit)];
    var one: Db := map[MessageAt(1) := MessageV(PUBLISHED.message)];
    var two := one[PublishedAt(1) := PublishedV(PUBLISHED)];
    assert last[1..] == [] && rest[1..] == last;
    assert [PutMessage(PUBLISHED.message), PutPublished(PUBLISHED), PutAudit(0, PUBLISHED.audit)][1..] == rest;
    assert RunSteps(WrittenDb(), []) == Ok(WrittenDb());
    assert two[AuditAt(0) := AuditV(PUBLISHED.audit)] == WrittenDb();
    assert RunSteps(two, last) == Ok(WrittenDb());
    assert RunSteps(one, rest) == Ok(WrittenDb());
  }

  lemma FirstPublishes()
    ensures Serial(EMPTY, ASKED.ops, ASKED.moment).after == Ledger(Overlay(map[], Wrote()), 1)
  {
    hide RunSteps, PublishPlan, PublishSteps;
    PublishedRuns();
    StepsRun();
    assert Overlay(map[], Wrote()) == WrittenDb();
    assert Decide(EMPTY, ASKED.ops[0], ASKED.moment) == Ok(Decision(Claims([]), Ledger(WrittenDb(), 1)));
    assert ASKED.ops[1..] == [];
  }

  lemma PublishedAgain()
    ensures var after := Ledger(Overlay(map[], Wrote()), 1);
            Serial(after, ASKED.ops, ASKED.moment) == Ran(after, [Ok(Claims([]))])
  {
    var after := Ledger(Overlay(map[], Wrote()), 1);
    assert Read(after.db, PublishedAt(1)) == Some(PublishedV(PUBLISHED));
    assert ASKED.ops[1..] == [];
  }

  lemma RunFirst(s: System, event: Event, rest: seq<Event>)
    requires Enabled(s, event) && CanRun(Next(s, event), rest)
    ensures CanRun(s, [event] + rest) && Run(s, [event] + rest) == Run(Next(s, event), rest)
  {
    assert ([event] + rest)[1..] == rest;
  }

  /** A Publication asked again before its sync is told durable, and lost by the crash that
      comes before it. */
  lemma RepeatToldDurableIsLost() returns (events: seq<Event>)
    ensures CanRun(STARTED, events)
    ensures Promise([Logged(ASKED, Wrote(), 1)], false) in Run(STARTED, events).promises
    ensures PublishedAt(1) !in Run(STARTED, events).live.db
  {
    hide Serial, CanRun, Run, PublishPlan, Decide;
    FirstPublishes();
    PublishedAgain();
    var batch := Logged(ASKED, Wrote(), 1);
    var s1 := Next(STARTED, WriteBatch(batch));
    var s2 := Next(s1, HandOver);
    var s3 := Next(s2, NothingWritten(ASKED));
    var s4 := Next(s3, Crash(0));
    assert CanRun(s4, []) && Run(s4, []) == s4 by {
      NothingRun(s4);
    }
    RunFirst(s3, Crash(0), []);
    RunFirst(s2, NothingWritten(ASKED), [Crash(0)] + []);
    RunFirst(s1, HandOver, [NothingWritten(ASKED)] + ([Crash(0)] + []));
    RunFirst(STARTED, WriteBatch(batch), [HandOver] + ([NothingWritten(ASKED)] + ([Crash(0)] + [])));
    events := [WriteBatch(batch)] + ([HandOver] + ([NothingWritten(ASKED)] + ([Crash(0)] + [])));
    assert s3.log == [batch];
    assert s4.live == EMPTY;
  }

  lemma NothingRun(s: System)
    ensures CanRun(s, []) && Run(s, []) == s
  {
  }
}
