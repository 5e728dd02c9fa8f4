/** Audit records moved from the runtime database to the audit database, each chained after the
    last of its writer's (`embedded/keeper.rs`, `chain.rs`): two stores with no write in common,
    and a crash between any two of their writes. */
module Keeper {
  import opened Wrappers
  import opened Records

  // ---- The audit database. ----

  /** A digest, taken for injective: what it was taken over. */
  datatype Digest = NoDigest | DigestOf(entry: AuditEntry, position: nat, previous: Digest)

  datatype Kept = Kept(entry: AuditEntry, position: nat, previous: Digest, digest: Digest)

  datatype Head = Head(position: nat, digest: Digest)

  datatype AuditDb = AuditDb(kept: map<Id, Kept>, heads: map<Id, Head>)

  const NONE_KEPT := AuditDb(map[], map[])

  function HeadOf(a: AuditDb, writer: Id): Head {
    if writer in a.heads then a.heads[writer] else Head(0, NoDigest)
  }

  /** `entry` given its place after the head of its writer's chain. */
  function Linked(a: AuditDb, entry: AuditEntry): Kept {
    var head := HeadOf(a, entry.writer);
    Kept(entry, head.position + 1, head.digest, DigestOf(entry, head.position + 1, head.digest))
  }

  /** Kept once by its identifier, and the chain's head moved to it in the same write. */
  function KeepOne(a: AuditDb, entry: AuditEntry): AuditDb {
    if entry.id in a.kept then a
    else
      var kept := Linked(a, entry);
      AuditDb(a.kept[entry.id := kept], a.heads[entry.writer := Head(kept.position, kept.digest)])
  }

  // ---- Each writer's chain. ----

  /** The records kept of each writer, in the order they were. */
  type Chains = map<Id, seq<Kept>>

  function ChainOf(chains: Chains, writer: Id): seq<Kept> {
    if writer in chains then chains[writer] else []
  }

  /** What a walk accepts of one record, after the one before it. */
  predicate LinkOk(chain: seq<Kept>, i: nat)
    requires i < |chain|
  {
    && chain[i].position == i + 1
    && chain[i].previous == (if i == 0 then NoDigest else chain[i - 1].digest)
    && chain[i].digest == DigestOf(chain[i].entry, chain[i].position, chain[i].previous)
  }

  /** A walk of a chain to the head the store holds accepts it. */
  ghost predicate Walks(chain: seq<Kept>, writer: Id, head: Head) {
    && (forall i | 0 <= i < |chain| :: LinkOk(chain, i) && chain[i].entry.writer == writer)
    && head == (if chain == [] then Head(0, NoDigest) else Head(|chain|, chain[|chain| - 1].digest))
  }

  ghost predicate InChain(chains: Chains, kept: Kept) {
    kept in ChainOf(chains, kept.entry.writer)
  }

  /** Each writer's records are its chain, to its head: numbered from one with no gap, each
      with the digest of the one before it; and each record is in it once. */
  ghost predicate Chained(a: AuditDb, chains: Chains) {
    && (forall writer: Id :: Walks(ChainOf(chains, writer), writer, HeadOf(a, writer)))
    && (forall id | id in a.kept :: a.kept[id].entry.id == id && InChain(chains, a.kept[id]))
    && (forall writer: Id, i | 0 <= i < |ChainOf(chains, writer)| ::
          var kept := ChainOf(chains, writer)[i];
          kept.entry.id in a.kept && a.kept[kept.entry.id] == kept)
  }

  function Longer(a: AuditDb, chains: Chains, entry: AuditEntry): Chains {
    if entry.id in a.kept then chains
    else chains[entry.writer := ChainOf(chains, entry.writer) + [Linked(a, entry)]]
  }

  lemma WalkGrows(chain: seq<Kept>, writer: Id, head: Head, entry: AuditEntry)
    requires Walks(chain, writer, head) && entry.writer == writer
    ensures var kept := Kept(entry, head.position + 1, head.digest, DigestOf(entry, head.position + 1, head.digest));
            Walks(chain + [kept], writer, Head(kept.position, kept.digest))
  {
    var kept := Kept(entry, head.position + 1, head.digest, DigestOf(entry, head.position + 1, head.digest));
    forall i | 0 <= i < |chain| + 1
      ensures LinkOk(chain + [kept], i) && (chain + [kept])[i].entry.writer == writer
    {
      if i < |chain| {
        assert LinkOk(chain, i);
      }
    }
  }

  lemma KeepWalks(a: AuditDb, chains: Chains, entry: AuditEntry, writer: Id)
    requires Chained(a, chains) && entry.id !in a.kept
    ensures Walks(ChainOf(Longer(a, chains, entry), writer), writer, HeadOf(KeepOne(a, entry), writer))
  {
    assert Walks(ChainOf(chains, writer), writer, HeadOf(a, writer));
    if writer == entry.writer {
      WalkGrows(ChainOf(chains, writer), writer, HeadOf(a, writer), entry);
    }
  }

  lemma KeptInChain(a: AuditDb, chains: Chains, entry: AuditEntry, id: Id)
    requires Chained(a, chains) && entry.id !in a.kept && id in KeepOne(a, entry).kept
    ensures var kept := KeepOne(a, entry).kept[id]; kept.entry.id == id && InChain(Longer(a, chains, entry), kept)
  {
    hide Walks;
    var longer := Longer(a, chains, entry);
    var chain := ChainOf(chains, entry.writer);
    assert ChainOf(longer, entry.writer) == chain + [Linked(a, entry)];
    if id == entry.id {
      assert ChainOf(longer, entry.writer)[|chain|] == Linked(a, entry);
    } else {
      assert InChain(chains, a.kept[id]);
    }
  }

  lemma ChainIsKept(a: AuditDb, chains: Chains, entry: AuditEntry, writer: Id, i: nat)
    requires Chained(a, chains) && entry.id !in a.kept && i < |ChainOf(Longer(a, chains, entry), writer)|
    ensures var kept := ChainOf(Longer(a, chains, entry), writer)[i];
            kept.entry.id in KeepOne(a, entry).kept && KeepOne(a, entry).kept[kept.entry.id] == kept
  {
    hide Walks;
    if i < |ChainOf(chains, writer)| {
      assert ChainOf(Longer(a, chains, entry), writer)[i] == ChainOf(chains, writer)[i];
    }
  }

  lemma KeepChains(a: AuditDb, chains: Chains, entry: AuditEntry)
    requires Chained(a, chains)
    ensures Chained(KeepOne(a, entry), Longer(a, chains, entry))
  {
    if entry.id !in a.kept {
      forall writer: Id
        ensures Walks(ChainOf(Longer(a, chains, entry), writer), writer, HeadOf(KeepOne(a, entry), writer))
      {
        KeepWalks(a, chains, entry, writer);
      }
      forall id | id in KeepOne(a, entry).kept
        ensures var kept := KeepOne(a, entry).kept[id]; kept.entry.id == id && InChain(Longer(a, chains, entry), kept)
      {
        KeptInChain(a, chains, entry, id);
      }
      forall writer: Id, i | 0 <= i < |ChainOf(Longer(a, chains, entry), writer)|
        ensures var kept := ChainOf(Longer(a, chains, entry), writer)[i];
                kept.entry.id in KeepOne(a, entry).kept && KeepOne(a, entry).kept[kept.entry.id] == kept
      {
        ChainIsKept(a, chains, entry, writer, i);
      }
      hide Walks, KeepOne, Longer, InChain;
    }
  }

  /** A record is in its writer's chain at one position only. */
  lemma ChainedOnce(a: AuditDb, chains: Chains, one: Id, i: nat, other: Id, j: nat)
    requires Chained(a, chains) && i < |ChainOf(chains, one)| && j < |ChainOf(chains, other)|
    requires ChainOf(chains, one)[i].entry.id == ChainOf(chains, other)[j].entry.id
    ensures one == other && i == j
  {
    assert Walks(ChainOf(chains, one), one, HeadOf(a, one)) && Walks(ChainOf(chains, other), other, HeadOf(a, other));
    assert LinkOk(ChainOf(chains, one), i) && LinkOk(ChainOf(chains, other), j);
  }

  lemma LinkOf(chain: seq<Kept>, writer: Id, head: Head, i: nat)
    requires Walks(chain, writer, head) && i < |chain|
    ensures LinkOk(chain, i) && head.position == |chain|
    ensures i == |chain| - 1 ==> head.digest == chain[i].digest
  {
  }

  /** Two walks to one head agree from the head back. */
  lemma {:induction false} SameBack(one: seq<Kept>, other: seq<Kept>, writer: Id, head: Head, i: nat)
    requires Walks(one, writer, head) && Walks(other, writer, head) && i < |one| == |other|
    ensures one[i] == other[i]
    decreases |one| - i
  {
    hide Walks;
    LinkOf(one, writer, head, i);
    LinkOf(other, writer, head, i);
    if i + 1 < |one| {
      SameBack(one, other, writer, head, i + 1);
      LinkOf(one, writer, head, i + 1);
      LinkOf(other, writer, head, i + 1);
    }
    assert one[i].digest == other[i].digest;
  }

  /** A walk that ends at a chain's head accepts that chain and no other sequence of records:
      none left out, put in, changed or moved. */
  lemma WalkAcceptsOnly(walked: seq<Kept>, chain: seq<Kept>, writer: Id, head: Head)
    requires Walks(walked, writer, head) && Walks(chain, writer, head)
    ensures walked == chain
  {
    assert |walked| == |chain| by {
      if walked != [] { LinkOf(walked, writer, head, 0); }
      if chain != [] { LinkOf(chain, writer, head, 0); }
    }
    forall i | 0 <= i < |chain| ensures walked[i] == chain[i] {
      SameBack(walked, chain, writer, head, i);
    }
  }

  // ---- The runtime database's audit sequence. ----

  /** What the one writer writes of it: a record at the next number, or the record at the first
      number not moved forgotten. */
  datatype Write = Append(entry: AuditEntry) | Forget

  datatype Rows = Rows(rows: map<nat, AuditEntry>, first: nat, next: nat)

  function RowsOf(log: seq<Write>): Rows {
    if log == [] then Rows(map[], 0, 0)
    else
      var before := RowsOf(log[..|log| - 1]);
      match log[|log| - 1]
      case Append(entry) => Rows(before.rows[before.next := entry], before.first, before.next + 1)
      case Forget => Rows(before.rows - {before.first}, before.first + 1, before.next)
  }

  /** The records written, in the order they were. */
  function Appended(log: seq<Write>): seq<AuditEntry> {
    if log == [] then []
    else
      var before := Appended(log[..|log| - 1]);
      match log[|log| - 1]
      case Append(entry) => before + [entry]
      case Forget => before
  }

  /** The rows held are those written and not moved, each at its number. */
  lemma {:induction false} RowsAre(log: seq<Write>)
    ensures var r := RowsOf(log);
            && r.next == |Appended(log)| && r.first <= r.next
            && (forall n: nat :: n in r.rows <==> r.first <= n < r.next)
            && (forall n: nat | n in r.rows :: r.rows[n] == Appended(log)[n])
    requires forall i | 0 <= i < |log| && log[i].Forget? :: RowsOf(log[..i]).first < RowsOf(log[..i]).next
  {
    if log != [] {
      var before := log[..|log| - 1];
      forall i | 0 <= i < |before| && before[i].Forget? ensures RowsOf(before[..i]).first < RowsOf(before[..i]).next {
        assert before[..i] == log[..i] && before[i] == log[i];
      }
      RowsAre(before);
      assert log[|log| - 1].Forget? ==> RowsOf(log[..|log| - 1]).first < RowsOf(log[..|log| - 1]).next;
    }
  }

  // ---- Moved one at a time, with a crash between any two writes. ----

  datatype Move =
    | Idle
    | Moving(number: nat, until: nat)      // the next to be kept
    | Forgetting(number: nat, until: nat)  // kept; to be forgotten
    | Awaiting(number: nat, until: nat)    // forgotten; its sync awaited

  datatype System = System(log: seq<Write>, durable: nat, audit: AuditDb, chains: Chains, keeper: Move)

  const STARTED := System([], 0, NONE_KEPT, map[], Idle)

  datatype Event =
    | WriteRecord(entry: AuditEntry)  // by a Publication, a Replay or itself; unsynced
    | Sync(to: nat)
    | Start(most: nat)
    | KeepRecord                      // the record and its chain's head, in one synced write
    | ForgetRecord
    | GoOn                            // forgotten, once that is synced or sooner; or all moved
    | Stop                            // an error: what it carries is missing, or a store fails
    | Crash(left: nat)

  predicate Enabled(s: System, event: Event) {
    match event
    case WriteRecord(_) => true
    case Sync(to) => s.durable <= to <= |s.log|
    case Start(_) => s.keeper.Idle?
    case KeepRecord => s.keeper.Moving? && s.keeper.number < s.keeper.until
    case ForgetRecord => s.keeper.Forgetting?
    case GoOn => s.keeper.Awaiting? || (s.keeper.Moving? && s.keeper.number >= s.keeper.until)
    case Stop => true
    case Crash(left) => s.durable <= left <= |s.log|
  }

  function Next(s: System, event: Event): System
    requires Enabled(s, event)
  {
    var r := RowsOf(s.log);
    match event
    case WriteRecord(entry) => s.(log := s.log + [Append(entry)])
    case Sync(to) => s.(durable := to)
    case Start(most) =>
      s.(keeper := Moving(r.first, if r.next < r.first + most then r.next else r.first + most))
    case KeepRecord =>
      // A record that is gone is an error, and nothing is written.
      if s.keeper.number !in r.rows then s.(keeper := Idle)
      else
        var entry := r.rows[s.keeper.number];
        s.(audit := KeepOne(s.audit, entry), chains := Longer(s.audit, s.chains, entry),
           keeper := Forgetting(s.keeper.number, s.keeper.until))
    case ForgetRecord =>
      // Answered no where the sequence has moved past it already.
      if r.first != s.keeper.number then s.(keeper := Idle)
      else s.(log := s.log + [Forget], keeper := Awaiting(s.keeper.number, s.keeper.until))
    case GoOn =>
      if s.keeper.Moving? then s.(keeper := Idle) else s.(keeper := Moving(s.keeper.number + 1, s.keeper.until))
    case Stop => s.(keeper := Idle)
    case Crash(left) => s.(log := s.log[..left], durable := left, keeper := Idle)
  }

  predicate CanRun(s: System, events: seq<Event>)
    decreases |events|
  {
    events == [] || (Enabled(s, events[0]) && CanRun(Next(s, events[0]), events[1..]))
  }

  function Run(s: System, events: seq<Event>): System
    requires CanRun(s, events)
    decreases |events|
  {
    if events == [] then s else Run(Next(s, events[0]), events[1..])
  }

  /** At every boundary of the log no record is forgotten but one that is kept. */
  ghost predicate ForgottenKept(log: seq<Write>, audit: AuditDb) {
    forall i | 0 <= i < |log| && log[i].Forget? ::
      var r := RowsOf(log[..i]);
      r.first < |Appended(log[..i])| && r.first < r.next && Appended(log[..i])[r.first].id in audit.kept
  }

  ghost predicate KeeperFits(s: System) {
    var r := RowsOf(s.log);
    match s.keeper
    case Idle => true
    case Moving(number, until) => until <= r.next && (number < until ==> r.first == number)
    case Forgetting(number, until) =>
      number < until <= r.next && r.first == number && number < |Appended(s.log)| && Appended(s.log)[number].id in s.audit.kept
    case Awaiting(number, until) => number < until <= r.next && r.first == number + 1
  }

  ghost predicate Inv(s: System) {
    && s.durable <= |s.log|
    && Chained(s.audit, s.chains)
    && ForgottenKept(s.log, s.audit)
    && KeeperFits(s)
  }

  lemma LogGrows(log: seq<Write>, write: Write, audit: AuditDb)
    requires ForgottenKept(log, audit)
    requires write.Forget? ==>
               RowsOf(log).first < RowsOf(log).next && RowsOf(log).first < |Appended(log)|
               && Appended(log)[RowsOf(log).first].id in audit.kept
    ensures ForgottenKept(log + [write], audit)
  {
    var longer := log + [write];
    assert longer[..|log|] == log;
    forall i | 0 <= i < |longer| && longer[i].Forget? ensures
      var r := RowsOf(longer[..i]);
      r.first < |Appended(longer[..i])| && r.first < r.next && Appended(longer[..i])[r.first].id in audit.kept
    {
      if i < |log| {
        assert longer[..i] == log[..i];
      }
    }
  }

  lemma LogCut(log: seq<Write>, left: nat, audit: AuditDb)
    requires ForgottenKept(log, audit) && left <= |log|
    ensures ForgottenKept(log[..left], audit)
  {
    forall i | 0 <= i < left ensures log[..left][..i] == log[..i] {
    }
  }

  lemma FittingRows(s: System)
    requires Inv(s)
    ensures var r := RowsOf(s.log);
            && r.next == |Appended(s.log)|
            && (forall n: nat :: n in r.rows <==> r.first <= n < r.next)
            && (forall n: nat | n in r.rows :: r.rows[n] == Appended(s.log)[n])
  {
    forall i | 0 <= i < |s.log| && s.log[i].Forget? ensures RowsOf(s.log[..i]).first < RowsOf(s.log[..i]).next {
    }
    RowsAre(s.log);
  }

  lemma StepKeeps(s: System, event: Event)
    requires Inv(s) && Enabled(s, event)
    ensures Inv(Next(s, event))
  {
    FittingRows(s);
    match event {
      case WriteRecord(entry) =>
        LogGrows(s.log, Append(entry), s.audit);
        assert (s.log + [Append(entry)])[..|s.log|] == s.log;
      case KeepRecord =>
        KeepChains(s.audit, s.chains, RowsOf(s.log).rows[s.keeper.number]);
      case ForgetRecord =>
        LogGrows(s.log, Forget, s.audit);
        assert (s.log + [Forget])[..|s.log|] == s.log;
      case Crash(left) => LogCut(s.log, left, s.audit);
      case _ =>
    }
  }

  lemma {:induction false} RunKeeps(s: System, events: seq<Event>)
    requires Inv(s) && CanRun(s, events)
    ensures Inv(Run(s, events))
    decreases |events|
  {
    if events != [] {
      StepKeeps(s, events[0]);
      RunKeeps(Next(s, events[0]), events[1..]);
    }
  }

  lemma {:induction false} ForgottenAreKept(log: seq<Write>, audit: AuditDb, number: nat)
    requires ForgottenKept(log, audit) && number < RowsOf(log).first
    ensures number < |Appended(log)| && Appended(log)[number].id in audit.kept
  {
    if log != [] {
      var before := log[..|log| - 1];
      LogCut(log, |log| - 1, audit);
      if number < RowsOf(before).first {
        ForgottenAreKept(before, audit, number);
      } else {
        assert log[|log| - 1].Forget?;
      }
    }
  }

  /** Each audit record the runtime database has is in its sequence at its number, or kept, as it
      was written; the keeper never meets a record gone; and what is kept is, writer by writer,
      one chain in which each record is once. */
  ghost predicate Moved(s: System) {
    var r := RowsOf(s.log);
    && (forall n: nat | n < |Appended(s.log)| :: Stays(s, n))
    && (s.keeper.Moving? && s.keeper.number < s.keeper.until ==> s.keeper.number in r.rows)
    && Chained(s.audit, s.chains)
  }

  ghost predicate Stays(s: System, n: nat)
    requires n < |Appended(s.log)|
  {
    var entry, r := Appended(s.log)[n], RowsOf(s.log);
    (n in r.rows && r.rows[n] == entry) || (entry.id in s.audit.kept && s.audit.kept[entry.id].entry == entry)
  }

  /** What a run writes is of `records`. */
  predicate Writes(events: seq<Event>, records: set<AuditEntry>) {
    forall i | 0 <= i < |events| && events[i].WriteRecord? :: events[i].entry in records
  }

  /** One record of each identifier. */
  predicate OneEach(records: set<AuditEntry>) {
    forall one, other | one in records && other in records && one.id == other.id :: one == other
  }

  ghost predicate AllOf(s: System, records: set<AuditEntry>) {
    && (forall n | 0 <= n < |Appended(s.log)| :: Appended(s.log)[n] in records)
    && forall id | id in s.audit.kept :: s.audit.kept[id].entry in records
  }

  lemma {:induction false} AppendedPrefix(log: seq<Write>, left: nat)
    requires left <= |log|
    ensures Appended(log[..left]) <= Appended(log)
    decreases |log|
  {
    if left < |log| {
      AppendedPrefix(log[..|log| - 1], left);
      assert log[..|log| - 1][..left] == log[..left];
    } else {
      assert log[..left] == log;
    }
  }

  lemma KeepStepOf(s: System, records: set<AuditEntry>)
    requires Inv(s) && Enabled(s, KeepRecord) && AllOf(s, records)
    ensures AllOf(Next(s, KeepRecord), records)
  {
    FittingRows(s);
    hide Inv, Longer, RowsOf, Appended, KeepOne;
    var number, r := s.keeper.number, RowsOf(s.log);
    if number in r.rows {
      assert r.rows[number] == Appended(s.log)[number];
      KeepOf(s.audit, r.rows[number], records);
    }
  }

  lemma StepOf(s: System, event: Event, records: set<AuditEntry>)
    requires Inv(s) && Enabled(s, event) && AllOf(s, records) && (event.WriteRecord? ==> event.entry in records)
    ensures AllOf(Next(s, event), records)
  {
    if event.KeepRecord? {
      KeepStepOf(s, records);
    } else {
      hide Inv, Longer, RowsOf, Appended, KeepOne;
      match event {
        case WriteRecord(entry) => AppendedOne(s.log, Append(entry));
        case ForgetRecord => AppendedOne(s.log, Forget);
        case Crash(left) => AppendedPrefix(s.log, left);
        case _ =>
      }
    }
  }

  lemma KeepOf(a: AuditDb, entry: AuditEntry, records: set<AuditEntry>)
    requires entry in records && forall id | id in a.kept :: a.kept[id].entry in records
    ensures forall id | id in KeepOne(a, entry).kept :: KeepOne(a, entry).kept[id].entry in records
  {
  }

  lemma AppendedOne(log: seq<Write>, write: Write)
    ensures Appended(log + [write]) == Appended(log) + if write.Append? then [write.entry] else []
  {
    assert (log + [write])[..|log|] == log;
  }

  lemma {:induction false} RunOf(s: System, events: seq<Event>, records: set<AuditEntry>)
    requires Inv(s) && CanRun(s, events) && AllOf(s, records) && Writes(events, records)
    ensures AllOf(Run(s, events), records)
    decreases |events|
  {
    if events != [] {
      StepKeeps(s, events[0]);
      StepOf(s, events[0], records);
      assert forall i | 0 <= i < |events[1..]| :: events[1..][i] == events[i + 1];
      RunOf(Next(s, events[0]), events[1..], records);
    }
  }

  /** In every run of writing, moving, stopping and crashing in which the records written under
      one identifier are one record, those a crash lost included. */
  lemma MovedOnce(events: seq<Event>, records: set<AuditEntry>)
    requires CanRun(STARTED, events) && Writes(events, records) && OneEach(records)
    ensures Moved(Run(STARTED, events))
  {
    assert Chained(NONE_KEPT, map[]);
    RunKeeps(STARTED, events);
    RunOf(STARTED, events, records);
    var s := Run(STARTED, events);
    FittingRows(s);
    forall n: nat | n < |Appended(s.log)| && n !in RowsOf(s.log).rows ensures Stays(s, n) {
      ForgottenAreKept(s.log, s.audit, n);
      var id := Appended(s.log)[n].id;
      assert s.audit.kept[id].entry.id == id;
    }
  }

  /** Each event as it comes, from state to state. */
  predicate Traced(states: seq<System>, events: seq<Event>) {
    && |states| == |events| + 1
    && forall k | 0 <= k < |events| :: Enabled(states[k], events[k]) && Next(states[k], events[k]) == states[k + 1]
  }

  lemma {:induction false} TraceRuns(states: seq<System>, events: seq<Event>)
    requires Traced(states, events)
    ensures CanRun(states[0], events) && Run(states[0], events) == states[|events|]
    decreases |events|
  {
    if events != [] {
      assert Enabled(states[0], events[0]) && Next(states[0], events[0]) == states[1];
      assert forall k | 0 <= k < |events[1..]| :: events[1..][k] == events[k + 1] && states[1..][k] == states[k + 1];
      TraceRuns(states[1..], events[1..]);
    }
  }

  /** Both records written and the first moved: a state by what its log and keeper are. */
  function Halfway(one: AuditEntry, log: seq<Write>, durable: nat, keeper: Move): System {
    System(log, durable, KeepOne(NONE_KEPT, one), Longer(NONE_KEPT, map[], one), keeper)
  }

  lemma FirstMoves(one: AuditEntry, other: AuditEntry)
    ensures var log := [Append(one), Append(other)];
            var states := [STARTED, STARTED.(log := [Append(one)]), STARTED.(log := log), STARTED.(log := log, keeper := Moving(0, 2)),
                           Halfway(one, log, 0, Forgetting(0, 2)), Halfway(one, log + [Forget], 0, Awaiting(0, 2))];
            Traced(states, [WriteRecord(one), WriteRecord(other), Start(2), KeepRecord, ForgetRecord])
  {
    TwoRows(one, other);
    hide RowsOf, Longer;
    assert [] + [Append(one)] == [Append(one)];
  }

  lemma SecondMoves(one: AuditEntry, other: AuditEntry)
    requires one.id == other.id
    ensures var log := [Append(one), Append(other)];
            var states := [Halfway(one, log + [Forget], 0, Awaiting(0, 2)), Halfway(one, log + [Forget], 3, Awaiting(0, 2)),
                           Halfway(one, log + [Forget], 3, Moving(1, 2)), Halfway(one, log + [Forget], 3, Forgetting(1, 2)),
                           Halfway(one, log + [Forget, Forget], 3, Awaiting(1, 2))];
            Traced(states, [Sync(3), GoOn, KeepRecord, ForgetRecord])
  {
    TwoRows(one, other);
    hide RowsOf;
    var log := [Append(one), Append(other)];
    assert log + [Forget] + [Forget] == log + [Forget, Forget];
  }

  /** Two records written under one identifier: both moved, and the second kept nowhere. */
  lemma Dropped(one: AuditEntry, other: AuditEntry) returns (events: seq<Event>)
    requires one != other && one.id == other.id
    ensures CanRun(STARTED, events) && Writes(events, {one, other}) && !Moved(Run(STARTED, events))
  {
    var log := [Append(one), Append(other)];
    FirstMoves(one, other);
    SecondMoves(one, other);
    TwoRows(one, other);
    var last := Halfway(one, log + [Forget, Forget], 3, Awaiting(1, 2));
    assert last.audit.kept[one.id].entry == one;
    hide RowsOf, Enabled, Next, Traced, CanRun, Run, Halfway, Appended;
    assert !Stays(last, 1);
    var first := [WriteRecord(one), WriteRecord(other), Start(2), KeepRecord, ForgetRecord];
    var rest := [Sync(3), GoOn, KeepRecord, ForgetRecord];
    var states := [STARTED, STARTED.(log := [Append(one)]), STARTED.(log := log), STARTED.(log := log, keeper := Moving(0, 2)),
                   Halfway(one, log, 0, Forgetting(0, 2)), Halfway(one, log + [Forget], 0, Awaiting(0, 2))];
    TraceRuns(states, first);
    var after := [Halfway(one, log + [Forget], 0, Awaiting(0, 2)), Halfway(one, log + [Forget], 3, Awaiting(0, 2)),
                  Halfway(one, log + [Forget], 3, Moving(1, 2)), Halfway(one, log + [Forget], 3, Forgetting(1, 2)), last];
    TraceRuns(after, rest);
    RunParts(STARTED, first, rest);
    events := first + rest;
  }

  lemma {:induction false} RunParts(s: System, first: seq<Event>, rest: seq<Event>)
    requires CanRun(s, first) && CanRun(Run(s, first), rest)
    ensures CanRun(s, first + rest) && Run(s, first + rest) == Run(Run(s, first), rest)
    decreases |first|
  {
    if first == [] {
      assert first + rest == rest;
    } else {
      assert (first + rest)[0] == first[0] && (first + rest)[1..] == first[1..] + rest;
      RunParts(Next(s, first[0]), first[1..], rest);
    }
  }

  lemma TwoRows(one: AuditEntry, other: AuditEntry)
    ensures var log := [Append(one), Append(other)];
            && RowsOf(log) == Rows(map[0 := one, 1 := other], 0, 2) && Appended(log) == [one, other]
            && RowsOf(log + [Forget]) == Rows(map[1 := other], 1, 2) && Appended(log + [Forget]) == [one, other]
            && RowsOf(log + [Forget, Forget]) == Rows(map[], 2, 2) && Appended(log + [Forget, Forget]) == [one, other]
  {
    var log := [Append(one), Append(other)];
    assert [Append(one)][..0] == [] && log[..1] == [Append(one)];
    assert RowsOf([Append(one)]) == Rows(map[0 := one], 0, 1) && Appended([Append(one)]) == [one];
    assert (log + [Forget])[..2] == log && (log + [Forget, Forget])[..3] == log + [Forget];
  }

  /** Moving loses none of `records`, in any run that writes them, where and only where no two of
      them have one identifier. */
  lemma MovedExactly(records: set<AuditEntry>)
    ensures (forall events | CanRun(STARTED, events) && Writes(events, records) :: Moved(Run(STARTED, events)))
       <==> OneEach(records)
  {
    hide Moved, CanRun, Run;
    if OneEach(records) {
      forall events | CanRun(STARTED, events) && Writes(events, records) ensures Moved(Run(STARTED, events)) {
        MovedOnce(events, records);
      }
    } else {
      var one, other :| one in records && other in records && one.id == other.id && one != other;
      var events := Dropped(one, other);
    }
  }

  /** A chain only grows: what was kept stays as it was, whatever crashes. */
  lemma StepGrows(s: System, event: Event, writer: Id)
    requires Enabled(s, event)
    ensures ChainOf(s.chains, writer) <= ChainOf(Next(s, event).chains, writer)
  {
  }

  lemma {:induction false} ChainsGrow(s: System, events: seq<Event>, writer: Id)
    requires CanRun(s, events)
    ensures ChainOf(s.chains, writer) <= ChainOf(Run(s, events).chains, writer)
    decreases |events|
  {
    if events != [] {
      StepGrows(s, events[0], writer);
      ChainsGrow(Next(s, events[0]), events[1..], writer);
    }
  }

  // ---- A record kept before it is durable. ----

  /** The record at `number` survives every crash that may come next. */
  ghost predicate Survives(s: System, number: nat) {
    forall left: nat | Enabled(s, Crash(left)) :: number < |Appended(s.log[..left])|
  }

  lemma {:induction false} AppendedMore(log: seq<Write>, left: nat)
    requires left <= |log|
    ensures |Appended(log[..left])| <= |Appended(log)|
    decreases |log|
  {
    if left < |log| {
      AppendedMore(log[..|log| - 1], left);
      assert log[..|log| - 1][..left] == log[..left];
    } else {
      assert log[..left] == log;
    }
  }

  lemma {:induction false} NextAppended(log: seq<Write>)
    ensures RowsOf(log).next == |Appended(log)|
  {
    if log != [] {
      NextAppended(log[..|log| - 1]);
    }
  }

  lemma SurvivesSynced(s: System, number: nat)
    requires s.durable <= |s.log|
    ensures Survives(s, number) <==> number < RowsOf(s.log[..s.durable]).next
  {
    NextAppended(s.log[..s.durable]);
    assert Enabled(s, Crash(s.durable));
    forall left: nat | Enabled(s, Crash(left)) ensures |Appended(s.log[..s.durable])| <= |Appended(s.log[..left])| {
      AppendedMore(s.log[..left], s.durable);
      assert s.log[..left][..s.durable] == s.log[..s.durable];
    }
  }

  /** What the keeper keeps was written, and stays written, where and only where its row was
      synced when it was moved: one moved before its sync may be of a write that is lost. */
  lemma KeptSurvives(s: System)
    requires Inv(s) && Enabled(s, KeepRecord)
    ensures var t := Next(s, KeepRecord);
            Survives(t, s.keeper.number) <==> s.keeper.number < RowsOf(s.log[..s.durable]).next
  {
    hide Inv, Survives;
    var t := Next(s, KeepRecord);
    assert s.durable <= |s.log| by { DurableIn(s); }
    SurvivesSynced(t, s.keeper.number);
  }

  lemma DurableIn(s: System)
    requires Inv(s)
    ensures s.durable <= |s.log|
  {
  }

  const LOST := AuditEntry(1, 1, "")

  lemma LostRows()
    ensures RowsOf([Append(LOST)]) == Rows(map[0 := LOST], 0, 1)
  {
    assert [Append(LOST)][..0] == [];
  }

  /** Such a record: moved before its sync, and its write lost by a crash. */
  lemma KeptOfALostWrite() returns (events: seq<Event>)
    ensures CanRun(STARTED, events)
    ensures var s := Run(STARTED, events); LOST.id in s.audit.kept && LOST !in Appended(s.log)
  {
    LostRows();
    hide CanRun, Run, RowsOf, Longer;
    events := [WriteRecord(LOST), Start(1), KeepRecord, Crash(0)];
    var s1 := STARTED.(log := [Append(LOST)]);
    var s3 := Halfway(LOST, [Append(LOST)], 0, Forgetting(0, 1));
    var s4 := Halfway(LOST, [], 0, Idle);
    assert [] + [Append(LOST)] == [Append(LOST)] && [Append(LOST)][..0] == [];
    assert Traced([STARTED, s1, s1.(keeper := Moving(0, 1)), s3, s4], events);
    TraceRuns([STARTED, s1, s1.(keeper := Moving(0, 1)), s3, s4], events);
  }

  // ---- A move with nothing in its way. ----

  function KeepAll(a: AuditDb, entries: seq<AuditEntry>): AuditDb {
    if entries == [] then a else KeepOne(KeepAll(a, entries[..|entries| - 1]), entries[|entries| - 1])
  }

  /** The two databases, and the keeper between them. */
  class Node {
    var rows: map<nat, AuditEntry>
    var first: nat
    var next: nat
    var audit: AuditDb

    ghost predicate Valid()
      reads this
    {
      first <= next && forall n: nat :: n in rows <==> first <= n < next
    }

    constructor ()
      ensures Valid() && rows == map[] && first == next == 0 && audit == NONE_KEPT
    {
      rows, first, next, audit := map[], 0, 0, NONE_KEPT;
    }

    /** A record written, at the next number. */
    method Write(entry: AuditEntry)
      requires Valid()
      modifies this
      ensures Valid() && rows == old(rows)[old(next) := entry]
      ensures next == old(next) + 1 && first == old(first) && audit == old(audit)
    {
      rows := rows[next := entry];
      next := next + 1;
    }

    /** The record at `number` forgotten, where the sequence stands at it. */
    method ForgetAt(number: nat) returns (yes: bool)
      requires Valid() && first < next
      modifies this
      ensures Valid() && yes == (old(first) == number)
      ensures yes ==> rows == old(rows) - {number} && first == number + 1
      ensures !yes ==> rows == old(rows) && first == old(first)
      ensures next == old(next) && audit == old(audit)
    {
      yes := first == number;
      if yes {
        rows := rows - {number};
        first := number + 1;
      }
    }

    /** Up to `most` records moved, oldest first. */
    method Keep(most: nat) returns (moved: nat)
      requires Valid()
      modifies this
      ensures Valid() && next == old(next)
      ensures moved == (if old(next) - old(first) < most then old(next) - old(first) else most)
      ensures first == old(first) + moved
      ensures forall n | n in rows :: n in old(rows) && rows[n] == old(rows)[n]
      ensures audit == KeepAll(old(audit), Entries(old(rows), old(first), moved))
    {
      moved := 0;
      ghost var entries: seq<AuditEntry> := [];
      var until := if next < first + most then next else first + most;
      var number := first;
      while number < until
        invariant Valid() && next == old(next) && number == first == old(first) + moved && number <= until
        invariant until == if next < old(first) + most then next else old(first) + most
        invariant forall n | n in rows :: n in old(rows) && rows[n] == old(rows)[n]
        invariant entries == Entries(old(rows), old(first), moved)
        invariant audit == KeepAll(old(audit), entries)
      {
        var entry := rows[number];
        assert (entries + [entry])[..|entries|] == entries;
        audit := KeepOne(audit, entry);
        entries := entries + [entry];
        var yes := ForgetAt(number);
        assert yes;
        moved := moved + 1;
        number := number + 1;
      }
    }
  }

  /** The records at the `n` numbers from `first` on. */
  function Entries(rows: map<nat, AuditEntry>, first: nat, n: nat): seq<AuditEntry> {
    if n == 0 then [] else Entries(rows, first, n - 1) + [EntryAt(rows, first + n - 1)]
  }

  function EntryAt(rows: map<nat, AuditEntry>, number: nat): AuditEntry {
    if number in rows then rows[number] else AuditEntry(0, 0, "")
  }
}
