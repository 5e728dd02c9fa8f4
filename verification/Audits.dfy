/** The runtime database's audit sequence as the operations write it (`commit.rs`): what the
    keeper finds there. */
module Audits {
  import opened Wrappers
  import opened Records
  import opened Queues
  import opened Steps
  import opened Operations
  import opened Frames
  import opened Once
  import Keeper
  import Pipeline

  /** A record at each number from the first not moved to the next, and at no other. */
  ghost predicate InSequence(ledger: Ledger) {
    && KeptUpTo(ledger.db).Ok? && KeptUpTo(ledger.db).value <= ledger.next
    && forall n: nat :: AuditAt(n) in ledger.db <==> KeptUpTo(ledger.db).value <= n < ledger.next
  }

  /** The audit record an operation writes when it takes effect, where it writes one. */
  function AuditOf(op: Op): Option<AuditEntry> {
    match op
    case Publishing(p) => Some(p.audit)
    case Replaying(r) => Some(r.audit)
    case WriteAudit(entry) => Some(entry)
    case _ => None
  }

  predicate Audited(ledger: Ledger, asked: Asked) {
    After(ledger, asked.op, asked.moment).next > ledger.next
  }

  lemma LastWritten(db: Db, first: seq<Step>, number: nat, entry: AuditEntry, key: Key)
    requires RunSteps(db, first + [PutAudit(number, entry)]).Ok? && NoneWrites(first, key)
    ensures Read(RunSteps(db, first + [PutAudit(number, entry)]).value, key)
         == if key == AuditAt(number) then Some(AuditV(entry)) else Read(db, key)
  {
    RunAppended(db, first, [PutAudit(number, entry)]);
    RunLeaves(db, first, key);
    assert [PutAudit(number, entry)][1..] == [];
    RunsNone(RunSteps(db, first).value[AuditAt(number) := AuditV(entry)]);
  }

  lemma PublishAudits(ledger: Ledger, p: Publication, moment: Moment, key: Key)
    requires key.AuditAt? || key.KeptAt?
    ensures var after := After(ledger, Publishing(p), moment);
            if Publishes(ledger, Asked(Publishing(p), moment), p.message.message) then
              after.next == ledger.next + 1
              && Read(after.db, key) == if key == AuditAt(ledger.next) then Some(AuditV(p.audit)) else Read(ledger.db, key)
            else after == ledger
  {
    hide RunSteps, Grants, StillHeld, PublicationSteps;
    RunsNone(ledger.db);
    if Publishes(ledger, Asked(Publishing(p), moment), p.message.message) {
      var until := SaturatingAdd(moment.now, p.leaseNanos);
      var first := PublicationSteps(p) + GrantSteps(p.claims, moment, until) + [PutPublished(p)];
      PublicationStepsAre(p);
      assert PublishSteps(p, ledger.next, moment, until) == first + [PutAudit(ledger.next, p.audit)];
      forall step | step in first ensures !MayWrite(step, key) {
        if step in PublicationSteps(p) {
        } else {
        }
      }
      LastWritten(ledger.db, first, ledger.next, p.audit, key);
    }
  }

  lemma ReplayAudits(ledger: Ledger, r: Replay, moment: Moment, key: Key)
    requires key.AuditAt? || key.KeptAt?
    ensures var after := After(ledger, Replaying(r), moment);
            if Once.Replays(ledger, Asked(Replaying(r), moment), r.queue, r.message) then
              after.next == ledger.next + 1
              && Read(after.db, key) == if key == AuditAt(ledger.next) then Some(AuditV(r.audit)) else Read(ledger.db, key)
            else after == ledger
  {
    hide RunSteps;
    RunsNone(ledger.db);
    if Once.Replays(ledger, Asked(Replaying(r), moment), r.queue, r.message) {
      var place := PlacedOf(ledger.db, DeadLine, r.queue, r.message).value.place;
      var first := [TakeDead(r.queue, r.message, place)] + CountSteps(r.journeys, r.held) + JoinSteps(r.held);
      CountStepsAre(r.journeys, r.held);
      assert ReplaySteps(r, place, ledger.next) == first + [PutAudit(ledger.next, r.audit)];
      forall step | step in first ensures !MayWrite(step, key) {
        if step in CountSteps(r.journeys, r.held) {
        } else {
        }
      }
      LastWritten(ledger.db, first, ledger.next, r.audit, key);
    }
  }

  /** The keeper forgets the record its sequence stands at, and none it has not come to. */
  predicate KeeperAsks(ledger: Ledger, op: Op) {
    op.ForgetAudit? ==> op.number < ledger.next
  }

  lemma OwnAudits(ledger: Ledger, asked: Asked, key: Key)
    requires InSequence(ledger) && (key.AuditAt? || key.KeptAt?)
    requires asked.op.WriteAudit? || asked.op.ForgetAudit?
    ensures var after := After(ledger, asked.op, asked.moment);
            match asked.op
            case WriteAudit(entry) =>
              after.next == ledger.next + 1
              && Read(after.db, key) == if key == AuditAt(ledger.next) then Some(AuditV(entry)) else Read(ledger.db, key)
            case ForgetAudit(number) =>
              after.next == ledger.next
              && Read(after.db, key)
                 == if number != KeptUpTo(ledger.db).value then Read(ledger.db, key)
                    else if key.KeptAt? then Some(NumberV(number + 1))
                    else if key == AuditAt(number) then None else Read(ledger.db, key)
            case _ => true
  {
    RunsNone(ledger.db);
    match asked.op {
      case WriteAudit(entry) =>
        assert [PutAudit(ledger.next, entry)][1..] == [];
        RunsNone(ledger.db[AuditAt(ledger.next) := AuditV(entry)]);
      case ForgetAudit(number) =>
        assert [DropAudit(number)][1..] == [];
        RunsNone((ledger.db - {AuditAt(number)})[KeptAt := NumberV(number + 1)]);
      case _ =>
    }
  }

  lemma PlainNext(ledger: Ledger, asked: Asked)
    requires AuditOf(asked.op).None?
    ensures After(ledger, asked.op, asked.moment).next == ledger.next
  {
    hide RunSteps, Renewed, HandOnSteps, Current, TurnSteps;
  }

  /** Each operation leaves the sequence without a gap: it writes its own record at the next
      number or none, and the keeper takes the first. */
  lemma AfterInSequence(ledger: Ledger, asked: Asked)
    requires InSequence(ledger) && KeeperAsks(ledger, asked.op)
    ensures InSequence(After(ledger, asked.op, asked.moment))
    ensures Audited(ledger, asked) ==>
              (AuditOf(asked.op).Some?
               && Read(After(ledger, asked.op, asked.moment).db, AuditAt(ledger.next)) == Some(AuditV(AuditOf(asked.op).value)))
  {
    hide After, PlanOf, Decide;
    var after := After(ledger, asked.op, asked.moment);
    forall key: Key | key.AuditAt? || key.KeptAt?
      ensures Reads(ledger, asked, key)
    {
      ReadsSo(ledger, asked, key);
    }
    assert Reads(ledger, asked, KeptAt);
    forall n: nat ensures AuditAt(n) in after.db <==> KeptUpTo(after.db).value <= n < after.next {
      assert Reads(ledger, asked, AuditAt(n));
    }
    assert Reads(ledger, asked, AuditAt(ledger.next));
  }

  /** The sequence reads, after an operation, as it did, but for the record the operation
      wrote and the one the keeper took. */
  ghost predicate Reads(ledger: Ledger, asked: Asked, key: Key) {
    var after := After(ledger, asked.op, asked.moment);
    if asked.op.ForgetAudit? && KeptUpTo(ledger.db) == Ok(asked.op.number) then
      && after.next == ledger.next
      && Read(after.db, key)
         == if key.KeptAt? then Some(NumberV(asked.op.number + 1))
            else if key == AuditAt(asked.op.number) then None else Read(ledger.db, key)
    else if after.next == ledger.next then Read(after.db, key) == Read(ledger.db, key)
    else
      && after.next == ledger.next + 1 && AuditOf(asked.op).Some?
      && Read(after.db, key)
         == if key == AuditAt(ledger.next) then Some(AuditV(AuditOf(asked.op).value)) else Read(ledger.db, key)
  }

  lemma ReadsSo(ledger: Ledger, asked: Asked, key: Key)
    requires InSequence(ledger) && (key.AuditAt? || key.KeptAt?)
    ensures Reads(ledger, asked, key)
  {
    hide After, PlanOf, Decide;
    match asked.op {
      case Publishing(p) => PublishAudits(ledger, p, asked.moment, key);
      case Replaying(r) => ReplayAudits(ledger, r, asked.moment, key);
      case WriteAudit(entry) => OwnAudits(ledger, asked, key);
      case ForgetAudit(number) => OwnAudits(ledger, asked, key);
      case _ =>
        PlainNext(ledger, asked);
        OthersLeave(ledger, asked, key);
    }
  }

  predicate KeeperAsksOnly(ledger: Ledger, asked: seq<Asked>)
    decreases |asked|
  {
    asked == []
    || (KeeperAsks(ledger, asked[0].op)
        && KeeperAsksOnly(After(ledger, asked[0].op, asked[0].moment), asked[1..]))
  }

  /** In every run from an empty database in which the keeper forgets only what was written,
      the sequence has no gap: the keeper never finds a record gone. */
  lemma {:induction false} RunInSequence(ledger: Ledger, asked: seq<Asked>)
    requires InSequence(ledger) && KeeperAsksOnly(ledger, asked)
    ensures InSequence(RunAsked(ledger, asked))
    decreases |asked|
  {
    if asked != [] {
      AfterInSequence(ledger, asked[0]);
      RunInSequence(After(ledger, asked[0].op, asked[0].moment), asked[1..]);
    }
  }

  // ---- The sequence is what the keeper takes it for. ----

  /** What an operation wrote of the sequence, as the keeper sees it. */
  function AuditWrite(ledger: Ledger, asked: Asked): seq<Keeper.Write> {
    if Audited(ledger, asked) && AuditOf(asked.op).Some? then [Keeper.Append(AuditOf(asked.op).value)]
    else if asked.op.ForgetAudit? && KeptUpTo(ledger.db) == Ok(asked.op.number) then [Keeper.Forget]
    else []
  }

  function AuditWrites(ledger: Ledger, asked: seq<Asked>): seq<Keeper.Write> {
    if asked == [] then []
    else
      var before := asked[..|asked| - 1];
      AuditWrites(ledger, before) + AuditWrite(RunAsked(ledger, before), asked[|asked| - 1])
  }

  /** The records at the sequence's numbers are the rows a keeper finds after `log`. */
  ghost predicate AsRows(ledger: Ledger, log: seq<Keeper.Write>) {
    var r := Keeper.RowsOf(log);
    && KeptUpTo(ledger.db) == Ok(r.first) && r.next == ledger.next
    && forall n: nat :: RowAt(ledger, r, n)
  }

  ghost predicate RowAt(ledger: Ledger, r: Keeper.Rows, n: nat) {
    Read(ledger.db, AuditAt(n)) == if n in r.rows then Some(AuditV(r.rows[n])) else None
  }

  lemma RowsWith(log: seq<Keeper.Write>, write: Keeper.Write)
    ensures var r := Keeper.RowsOf(log);
            Keeper.RowsOf(log + [write])
            == match write
               case Append(entry) => Keeper.Rows(r.rows[r.next := entry], r.first, r.next + 1)
               case Forget => Keeper.Rows(r.rows - {r.first}, r.first + 1, r.next)
  {
    assert (log + [write])[..|log|] == log;
  }

  lemma AfterAsRows(ledger: Ledger, asked: Asked, log: seq<Keeper.Write>)
    requires InSequence(ledger) && KeeperAsks(ledger, asked.op) && AsRows(ledger, log)
    ensures AsRows(After(ledger, asked.op, asked.moment), log + AuditWrite(ledger, asked))
  {
    hide After, PlanOf, Decide, Keeper.RowsOf, KeptUpTo, InSequence;
    var after, write := After(ledger, asked.op, asked.moment), AuditWrite(ledger, asked);
    if write == [] {
      assert log + [] == log;
    } else {
      RowsWith(log, write[0]);
    }
    ReadsSo(ledger, asked, KeptAt);
    KeptUpToReads(ledger.db, after.db);
    var r := Keeper.RowsOf(log + write);
    forall n: nat ensures RowAt(after, r, n) {
      ReadsSo(ledger, asked, AuditAt(n));
      assert RowAt(ledger, Keeper.RowsOf(log), n);
    }
  }

  lemma KeptUpToReads(db: Db, after: Db)
    ensures Read(after, KeptAt) == Read(db, KeptAt) ==> KeptUpTo(after) == KeptUpTo(db)
    ensures forall number: nat | Read(after, KeptAt) == Some(NumberV(number)) :: KeptUpTo(after) == Ok(number)
  {
  }

  /** So over every run the rows and numbers are those of the writes the operations made of the
      sequence, in the order they were decided. */
  lemma {:induction false} RunAsRows(asked: seq<Asked>)
    requires KeeperAsksOnly(Pipeline.EMPTY, asked)
    ensures InSequence(RunAsked(Pipeline.EMPTY, asked)) && AsRows(RunAsked(Pipeline.EMPTY, asked), AuditWrites(Pipeline.EMPTY, asked))
  {
    RunInSequence(Pipeline.EMPTY, asked);
    if asked != [] {
      var before, last := asked[..|asked| - 1], asked[|asked| - 1];
      assert asked == before + [last];
      AsksBefore(Pipeline.EMPTY, before, last);
      RunAsRows(before);
      AfterAsRows(RunAsked(Pipeline.EMPTY, before), last, AuditWrites(Pipeline.EMPTY, before));
      RunAskedParts(Pipeline.EMPTY, before, [last]);
      assert [last][1..] == [];
    }
  }

  lemma {:induction false} AsksBefore(ledger: Ledger, before: seq<Asked>, last: Asked)
    requires KeeperAsksOnly(ledger, before + [last])
    ensures KeeperAsksOnly(ledger, before) && KeeperAsks(RunAsked(ledger, before), last.op)
    decreases |before|
  {
    if before != [] {
      assert (before + [last])[0] == before[0] && (before + [last])[1..] == before[1..] + [last];
      AsksBefore(After(ledger, before[0].op, before[0].moment), before[1..], last);
    }
  }

  /** In every run of batches, syncs and crashes, what the keeper finds is the rows of what the
      surviving batches wrote: its log is theirs, and a crash cuts it at a batch's end. */
  lemma KeeperFinds(events: seq<Pipeline.Event>)
    requires Pipeline.CanRun(Pipeline.STARTED, events)
    requires KeeperAsksOnly(Pipeline.EMPTY, Surviving(Pipeline.Run(Pipeline.STARTED, events).log))
    ensures var s := Pipeline.Run(Pipeline.STARTED, events);
            AsRows(s.live, AuditWrites(Pipeline.EMPTY, Surviving(s.log)))
  {
    var s := Pipeline.Run(Pipeline.STARTED, events);
    Pipeline.CrashSafe(events);
    DecidedRuns(s.log);
    RunAsRows(Surviving(s.log));
  }
}
