/** The one writer and the audit keeper in one run (`commit.rs`, `embedded/keeper.rs`): the keeper
    reads the runtime database as it is, and what it asks of it is one operation of a batch. */
module Keeping {
  import opened Wrappers
  import opened Records
  import opened Operations
  import opened Once
  import opened Audits
  import K = Keeper
  import P = Pipeline
  import Steps
  import Writers

  /** Where the keeper is; `batch` is the one whose sync it awaits. */
  datatype Move =
    | Idle
    | Moving(number: nat, until: nat)
    | Forgetting(number: nat, until: nat)
    | Awaiting(number: nat, until: nat, batch: nat)

  datatype System = System(p: P.System, audit: K.AuditDb, chains: K.Chains, keeper: Move)

  const STARTED := System(P.STARTED, K.NONE_KEPT, map[], Idle)

  datatype Event =
    | Writes(event: P.Event)  // a batch, a sync or a crash
    | Start(most: nat)
    | KeepRecord
    | GoOn
    | Stop

  predicate NoneForgets(ops: seq<Op>) {
    forall i | 0 <= i < |ops| :: !ops[i].ForgetAudit?
  }

  /** Only the keeper asks that a record be forgotten: the one it has kept, once. */
  predicate Asks(ops: seq<Op>, keeper: Move)
    decreases |ops|
  {
    ops == []
    || if ops[0].ForgetAudit? then keeper.Forgetting? && ops[0].number == keeper.number && NoneForgets(ops[1..])
       else Asks(ops[1..], keeper)
  }

  /** Where it is once the batch answered it. */
  function Answered(ledger: Ledger, ops: seq<Op>, moment: Moment, keeper: Move, batch: nat): Move
    decreases |ops|
  {
    if ops == [] then keeper
    else if !ops[0].ForgetAudit? || !keeper.Forgetting? then
      Answered(After(ledger, ops[0], moment), ops[1..], moment, keeper, batch)
    else
      match Decide(ledger, ops[0], moment)
      case Ok(decided) => if decided.done == Yes(true) then Awaiting(keeper.number, keeper.until, batch) else Idle
      case Err(_) => Idle
  }

  ghost predicate Enabled(s: System, event: Event) {
    match event
    case Writes(e) =>
      && P.Enabled(s.p, e)
      && (e.WriteBatch? ==> Asks(e.batch.group.ops, s.keeper))
      && (e.NothingWritten? ==> Asks(e.group.ops, s.keeper))
    case Start(_) => s.keeper.Idle?
    case KeepRecord => s.keeper.Moving? && s.keeper.number < s.keeper.until
    case GoOn =>
      (s.keeper.Awaiting? && s.keeper.batch < s.p.durable) || (s.keeper.Moving? && s.keeper.number >= s.keeper.until)
    case Stop => true
  }

  function Next(s: System, event: Event): System
    requires Enabled(s, event)
  {
    match event
    case Writes(e) =>
      var keeper :=
        match e
        case WriteBatch(batch) => Answered(s.p.live, batch.group.ops, batch.group.moment, s.keeper, |s.p.log|)
        case NothingWritten(group) => Answered(s.p.live, group.ops, group.moment, s.keeper, |s.p.log|)
        case Crash(_) => Idle
        case _ => s.keeper;
      s.(p := P.Next(s.p, e), keeper := keeper)
    case Start(most) =>
      (match KeptUpTo(s.p.live.db)
       case Ok(first) => s.(keeper := Moving(first, if s.p.live.next < first + most then s.p.live.next else first + most))
       case Err(_) => s)
    case KeepRecord =>
      (match Read(s.p.live.db, AuditAt(s.keeper.number))
       case Some(AuditV(entry)) =>
         s.(audit := K.KeepOne(s.audit, entry), chains := K.Longer(s.audit, s.chains, entry),
            keeper := Forgetting(s.keeper.number, s.keeper.until))
       case _ => s.(keeper := Idle))
    case GoOn =>
      if s.keeper.Moving? then s.(keeper := Idle) else s.(keeper := Moving(s.keeper.number + 1, s.keeper.until))
    case Stop => s.(keeper := Idle)
  }

  ghost predicate CanRun(s: System, events: seq<Event>)
    decreases |events|
  {
    events == [] || (Enabled(s, events[0]) && CanRun(Next(s, events[0]), events[1..]))
  }

  function Run(s: System, events: seq<Event>): System
    requires CanRun(s, events)
    decreases |events|
  {
    if events == [] then s else Run(Next(s, events[0]), events[1..])
  }

  // ---- As the keeper's own machine has it. ----

  function MoveOf(keeper: Move): K.Move {
    match keeper
    case Idle => K.Idle
    case Moving(number, until) => K.Moving(number, until)
    case Forgetting(number, until) => K.Forgetting(number, until)
    case Awaiting(number, until, _) => K.Awaiting(number, until)
  }

  /** What the batches of a log wrote of the audit sequence. */
  function LogOf(log: seq<P.Logged>): seq<K.Write> {
    AuditWrites(P.EMPTY, Surviving(log))
  }

  function DurableOf(p: P.System): nat {
    if p.durable <= |p.log| then |LogOf(p.log[..p.durable])| else 0
  }

  function KeeperOf(s: System): K.System {
    K.System(LogOf(s.p.log), DurableOf(s.p), s.audit, s.chains, MoveOf(s.keeper))
  }

  ghost predicate Good(s: System) {
    && P.Holds(s.p) && P.Boundaries(s.p) && K.Inv(KeeperOf(s))
    && KeeperAsksOnly(P.EMPTY, Surviving(s.p.log))
  }

  /** The runtime database the keeper reads holds the rows its machine says. */
  lemma LiveRows(s: System)
    requires P.Holds(s.p) && KeeperAsksOnly(P.EMPTY, Surviving(s.p.log))
    ensures s.p.live == RunAsked(P.EMPTY, Surviving(s.p.log))
    ensures InSequence(s.p.live) && AsRows(s.p.live, LogOf(s.p.log))
  {
    DecidedRuns(s.p.log);
    RunAsRows(Surviving(s.p.log));
  }

  // ---- The operations of a batch. ----

  lemma {:induction false} AsksThen(ledger: Ledger, before: seq<Asked>, last: Asked)
    requires KeeperAsksOnly(ledger, before) && KeeperAsks(RunAsked(ledger, before), last.op)
    ensures KeeperAsksOnly(ledger, before + [last])
    decreases |before|
  {
    if before == [] {
      assert [] + [last] == [last] && [last][1..] == [];
    } else {
      assert (before + [last])[0] == before[0] && (before + [last])[1..] == before[1..] + [last];
      AsksThen(After(ledger, before[0].op, before[0].moment), before[1..], last);
    }
  }

  lemma {:induction false} AsksPart(ledger: Ledger, first: seq<Asked>, rest: seq<Asked>)
    requires KeeperAsksOnly(ledger, first + rest)
    ensures KeeperAsksOnly(ledger, first)
    decreases |first|
  {
    if first != [] {
      assert (first + rest)[0] == first[0] && (first + rest)[1..] == first[1..] + rest;
      AsksPart(After(ledger, first[0].op, first[0].moment), first[1..], rest);
    }
  }

  lemma RunLast(before: seq<Asked>, last: Asked)
    ensures RunAsked(P.EMPTY, before + [last]) == After(RunAsked(P.EMPTY, before), last.op, last.moment)
    ensures AuditWrites(P.EMPTY, before + [last])
         == AuditWrites(P.EMPTY, before) + AuditWrite(RunAsked(P.EMPTY, before), last)
  {
    RunAskedParts(P.EMPTY, before, [last]);
    assert [last][1..] == [] && (before + [last])[..|before|] == before;
  }

  lemma {:induction false} NoneAsks(ledger: Ledger, ops: seq<Op>, moment: Moment, keeper: Move, batch: nat)
    requires NoneForgets(ops)
    ensures Asks(ops, keeper) && Answered(ledger, ops, moment, keeper, batch) == keeper
    decreases |ops|
  {
    if ops != [] {
      assert !ops[0].ForgetAudit?;
      assert forall i | 0 <= i < |ops[1..]| :: ops[1..][i] == ops[i + 1];
      NoneAsks(After(ledger, ops[0], moment), ops[1..], moment, keeper, batch);
    }
  }

  /** Every audit record the operations carry is of `records`. */
  predicate Carry(ops: seq<Op>, records: set<AuditEntry>) {
    forall i | 0 <= i < |ops| && AuditOf(ops[i]).Some? :: AuditOf(ops[i]).value in records
  }

  lemma ForgetDecides(ledger: Ledger, number: nat, moment: Moment)
    requires KeptUpTo(ledger.db) == Ok(number)
    ensures Decide(ledger, ForgetAudit(number), moment).Ok?
    ensures Decide(ledger, ForgetAudit(number), moment).value.done == Yes(true)
    ensures AuditWrite(ledger, Asked(ForgetAudit(number), moment)) == [K.Forget]
  {
    hide Steps.RunSteps, KeptUpTo;
    Steps.RunsOne(ledger.db, Steps.DropAudit(number));
    assert PlanOf(ledger.db, ledger.next, ForgetAudit(number), moment) == Ok(Plan(Yes(true), [Steps.DropAudit(number)], 0));
  }

  lemma RowsFit(before: seq<Asked>, k: K.System)
    requires KeeperAsksOnly(P.EMPTY, before) && K.Inv(k) && k.log == AuditWrites(P.EMPTY, before) && k.keeper.Forgetting?
    ensures var ledger := RunAsked(P.EMPTY, before);
            && KeptUpTo(ledger.db) == Ok(k.keeper.number) && k.keeper.number < ledger.next
            && K.RowsOf(k.log).first == k.keeper.number
  {
    RunAsRows(before);
  }

  /** Forgotten, where the keeper stands at the record it kept. */
  lemma Forgets(before: seq<Asked>, moment: Moment, k: K.System)
    requires KeeperAsksOnly(P.EMPTY, before) && K.Inv(k) && k.log == AuditWrites(P.EMPTY, before) && k.keeper.Forgetting?
    ensures var ledger, op := RunAsked(P.EMPTY, before), ForgetAudit(k.keeper.number);
            && KeeperAsks(ledger, op) && AuditWrite(ledger, Asked(op, moment)) == [K.Forget]
            && Decide(ledger, op, moment).Ok? && Decide(ledger, op, moment).value.done == Yes(true)
    ensures K.RowsOf(k.log).first == k.keeper.number
  {
    RowsFit(before, k);
    hide KeeperAsksOnly, K.Inv, RunAsked, AuditWrites, AuditWrite, Decide, K.RowsOf, KeptUpTo;
    ForgetDecides(RunAsked(P.EMPTY, before), k.keeper.number, moment);
  }

  /** One operation: a record written, the keeper's forgotten, or neither. */
  lemma OpKeeps(before: seq<Asked>, op: Op, moment: Moment, k: K.System, keeper: Move, batch: nat,
                records: set<AuditEntry>)
    returns (events: seq<K.Event>)
    requires KeeperAsksOnly(P.EMPTY, before) && K.Inv(k) && k.log == AuditWrites(P.EMPTY, before)
    requires k.keeper == MoveOf(keeper) && Asks([op], keeper) && Carry([op], records)
    ensures K.CanRun(k, events) && K.Writes(events, records) && K.Inv(K.Run(k, events))
    ensures KeeperAsksOnly(P.EMPTY, before + [Asked(op, moment)])
    ensures K.Run(k, events)
         == k.(log := AuditWrites(P.EMPTY, before + [Asked(op, moment)]),
               keeper := MoveOf(Answered(RunAsked(P.EMPTY, before), [op], moment, keeper, batch)))
  {
    hide K.Inv, AuditWrites, KeeperAsksOnly, RunAsked, K.RowsOf, Decide, After, K.Longer, K.KeepOne;
    var asked, ledger := Asked(op, moment), RunAsked(P.EMPTY, before);
    RunLast(before, asked);
    assert [op][1..] == [];
    if op.ForgetAudit? {
      Forgets(before, moment, k);
      events := [K.ForgetRecord];
    } else {
      events := Appends(ledger, op, moment, records);
      assert k.log + [] == k.log;
    }
    AsksThen(P.EMPTY, before, asked);
    if events != [] {
      K.StepKeeps(k, events[0]);
      assert events[1..] == [];
    }
  }

  lemma Appends(ledger: Ledger, op: Op, moment: Moment, records: set<AuditEntry>) returns (events: seq<K.Event>)
    requires !op.ForgetAudit? && Carry([op], records)
    ensures K.Writes(events, records)
    ensures if AuditWrite(ledger, Asked(op, moment)) == [] then events == []
            else AuditOf(op).Some? && events == [K.WriteRecord(AuditOf(op).value)]
                 && AuditWrite(ledger, Asked(op, moment)) == [K.Append(AuditOf(op).value)]
  {
    assert AuditOf([op][0]) == AuditOf(op);
    events := if AuditWrite(ledger, Asked(op, moment)) == [] then [] else [K.WriteRecord(AuditOf(op).value)];
  }

  lemma AsksFirst(ledger: Ledger, ops: seq<Op>, moment: Moment, keeper: Move, batch: nat)
    requires ops != [] && Asks(ops, keeper)
    ensures ops[..1] == [ops[0]]
    ensures var one := Answered(ledger, ops[..1], moment, keeper, batch);
            && Asks(ops[..1], keeper) && Asks(ops[1..], one)
            && Answered(After(ledger, ops[0], moment), ops[1..], moment, one, batch)
               == Answered(ledger, ops, moment, keeper, batch)
  {
    hide Decide, After;
    assert ops[..1][1..] == [];
    if ops[0].ForgetAudit? {
      NoneAsks(After(ledger, ops[0], moment), ops[1..], moment, Answered(ledger, ops[..1], moment, keeper, batch), batch);
    }
  }

  /** All of a batch's, one after another. */
  lemma {:induction false} OpsKeep(before: seq<Asked>, ops: seq<Op>, moment: Moment, k: K.System, keeper: Move,
                                   batch: nat, records: set<AuditEntry>)
    returns (events: seq<K.Event>)
    requires KeeperAsksOnly(P.EMPTY, before) && K.Inv(k) && k.log == AuditWrites(P.EMPTY, before)
    requires k.keeper == MoveOf(keeper) && Asks(ops, keeper) && Carry(ops, records)
    ensures K.CanRun(k, events) && K.Writes(events, records) && K.Inv(K.Run(k, events))
    ensures KeeperAsksOnly(P.EMPTY, before + Each(ops, moment))
    ensures K.Run(k, events)
         == k.(log := AuditWrites(P.EMPTY, before + Each(ops, moment)),
               keeper := MoveOf(Answered(RunAsked(P.EMPTY, before), ops, moment, keeper, batch)))
    decreases |ops|
  {
    hide K.Inv, K.CanRun, K.Run, K.Writes, AuditWrites, KeeperAsksOnly, RunAsked, Answered, Asks, After, Carry, MoveOf;
    if ops == [] {
      NoOps(before, moment, k, keeper, batch);
      events := [];
    } else {
      var ledger, asked := RunAsked(P.EMPTY, before), Asked(ops[0], moment);
      AsksFirst(ledger, ops, moment, keeper, batch);
      CarryFirst(ops, records);
      assert before + Each(ops, moment) == (before + [asked]) + Each(ops[1..], moment);
      RunLast(before, asked);
      var first := OpKeeps(before, ops[0], moment, k, keeper, batch, records);
      var moved := Answered(ledger, ops[..1], moment, keeper, batch);
      var rest := OpsKeep(before + [asked], ops[1..], moment, K.Run(k, first), moved, batch, records);
      K.RunParts(k, first, rest);
      WritesBoth(first, rest, records);
      events := first + rest;
    }
  }

  lemma NoOps(before: seq<Asked>, moment: Moment, k: K.System, keeper: Move, batch: nat)
    ensures before + Each([], moment) == before && K.CanRun(k, []) && K.Run(k, []) == k
    ensures Answered(RunAsked(P.EMPTY, before), [], moment, keeper, batch) == keeper
    ensures forall records: set<AuditEntry> :: K.Writes([], records)
  {
  }

  lemma CarryFirst(ops: seq<Op>, records: set<AuditEntry>)
    requires ops != [] && Carry(ops, records)
    ensures Carry([ops[0]], records) && Carry(ops[1..], records)
  {
  }

  lemma WritesBoth(first: seq<K.Event>, rest: seq<K.Event>, records: set<AuditEntry>)
    requires K.Writes(first, records) && K.Writes(rest, records)
    ensures K.Writes(first + rest, records)
  {
  }

  // ---- What a crash leaves. ----

  lemma {:induction false} LogPrefix(log: seq<P.Logged>, left: nat)
    requires left <= |log|
    ensures LogOf(log[..left]) <= LogOf(log)
    ensures KeeperAsksOnly(P.EMPTY, Surviving(log)) ==> KeeperAsksOnly(P.EMPTY, Surviving(log[..left]))
    decreases |log|
  {
    if left < |log| {
      var last := log[|log| - 1];
      LogPrefix(log[..|log| - 1], left);
      assert log[..|log| - 1][..left] == log[..left];
      var before, ops := Surviving(log[..|log| - 1]), Each(last.group.ops, last.group.moment);
      WritesPrefix(before, ops);
      if KeeperAsksOnly(P.EMPTY, Surviving(log)) {
        AsksPart(P.EMPTY, before, ops);
      }
    } else {
      assert log[..left] == log;
    }
  }

  lemma {:induction false} WritesPrefix(before: seq<Asked>, more: seq<Asked>)
    ensures AuditWrites(P.EMPTY, before) <= AuditWrites(P.EMPTY, before + more)
    decreases |more|
  {
    hide AuditWrite, RunAsked;
    if more == [] {
      assert before + more == before;
    } else {
      var all, last := before + more, |more| - 1;
      assert all[..|all| - 1] == before + more[..last];
      WritesPrefix(before, more[..last]);
    }
  }

  // ---- Each step of both is the keeper's, or none. ----

  /** The keeper's machine comes from `s` to `t`, writing what is of `records`. */
  ghost predicate Follows(s: System, t: System, events: seq<K.Event>, records: set<AuditEntry>) {
    K.CanRun(KeeperOf(s), events) && K.Run(KeeperOf(s), events) == KeeperOf(t) && K.Writes(events, records)
  }

  lemma FollowsOne(s: System, t: System, event: K.Event, records: set<AuditEntry>)
    requires Good(s) && P.Holds(t.p) && P.Boundaries(t.p) && KeeperAsksOnly(P.EMPTY, Surviving(t.p.log))
    requires !event.WriteRecord? && K.Enabled(KeeperOf(s), event) && K.Next(KeeperOf(s), event) == KeeperOf(t)
    ensures Good(t) && Follows(s, t, [event], records)
  {
    hide K.Inv, P.Holds, P.Boundaries, KeeperOf, KeeperAsksOnly, K.Enabled, K.Next;
    K.StepKeeps(KeeperOf(s), event);
    OneRun(KeeperOf(s), event);
  }

  lemma OneRun(k: K.System, event: K.Event)
    requires K.Enabled(k, event)
    ensures K.CanRun(k, [event]) && K.Run(k, [event]) == K.Next(k, event)
  {
    hide K.Enabled, K.Next;
    var next := K.Next(k, event);
    assert [event][1..] == [] && K.CanRun(next, []) && K.Run(next, []) == next;
  }

  lemma StartStep(s: System, most: nat)
    requires AsRows(s.p.live, LogOf(s.p.log)) && s.keeper.Idle?
    ensures K.Next(KeeperOf(s), K.Start(most)) == KeeperOf(Next(s, Start(most)))
  {
    hide LogOf, DurableOf, K.RowsOf, KeptUpTo, P.Next, Answered, K.KeepOne, K.Longer, RowAt;
  }

  lemma KeepStep(s: System)
    requires AsRows(s.p.live, LogOf(s.p.log)) && Enabled(s, KeepRecord)
    ensures K.Next(KeeperOf(s), K.KeepRecord) == KeeperOf(Next(s, KeepRecord))
  {
    hide LogOf, DurableOf, K.RowsOf, KeptUpTo, P.Next, P.Enabled, Answered, K.KeepOne, K.Longer;
    assert RowAt(s.p.live, K.RowsOf(KeeperOf(s).log), s.keeper.number);
  }

  /** The keeper's own steps read the rows its machine has. */
  lemma OwnIs(s: System, event: Event) returns (own: K.Event)
    requires AsRows(s.p.live, LogOf(s.p.log)) && Enabled(s, event) && !event.Writes?
    ensures Next(s, event).p == s.p
    ensures !own.WriteRecord? && K.Enabled(KeeperOf(s), own) && K.Next(KeeperOf(s), own) == KeeperOf(Next(s, event))
  {
    hide LogOf, DurableOf, K.RowsOf, K.KeepOne, K.Longer, P.Next, P.Enabled, AsRows;
    match event {
      case Start(most) =>
        StartStep(s, most);
        own := K.Start(most);
      case KeepRecord =>
        KeepStep(s);
        own := K.KeepRecord;
      case GoOn => own := K.GoOn;
      case Stop => own := K.Stop;
    }
  }

  lemma OwnStep(s: System, event: Event, records: set<AuditEntry>) returns (events: seq<K.Event>)
    requires Good(s) && Enabled(s, event) && !event.Writes?
    ensures Good(Next(s, event)) && Follows(s, Next(s, event), events, records)
  {
    hide P.Holds, P.Boundaries, KeeperAsksOnly, K.Inv, Follows, KeeperOf, LogOf, AsRows, InSequence, Next;
    hide Enabled, K.Next, K.Enabled;
    LiveRows(s);
    var own := OwnIs(s, event);
    events := [own];
    FollowsOne(s, Next(s, event), own, records);
  }

  /** What a batch, a sync or a crash makes of the log and the keeper. */
  lemma WritesTo(s: System, event: P.Event)
    requires Good(s) && Enabled(s, Writes(event))
    ensures var t := Next(s, Writes(event)); var n := |s.p.log|;
            && P.Holds(t.p) && P.Boundaries(t.p) && s.p.durable <= n && s.p.durable <= t.p.durable <= |t.p.log|
            && t.audit == s.audit && t.chains == s.chains
            && match event
               case WriteBatch(batch) =>
                 && t.p.log == s.p.log + [batch] && t.p.durable == s.p.durable && Asks(batch.group.ops, s.keeper)
                 && t.keeper == Answered(s.p.live, batch.group.ops, batch.group.moment, s.keeper, n)
               case NothingWritten(group) =>
                 && t.p.log == s.p.log && t.p.durable == s.p.durable && Asks(group.ops, s.keeper)
                 && t.keeper == Answered(s.p.live, group.ops, group.moment, s.keeper, n)
                 && Writers.Serial(s.p.live, group.ops, group.moment).after == s.p.live
               case Crash(kept) => kept <= n && t.p.log == s.p.log[..kept] && t.p.durable == kept && t.keeper == Idle
               case EndSync(_) => t.p.log == s.p.log && t.keeper == s.keeper
               case Flush(_) => t.p.log == s.p.log && t.keeper == s.keeper
               case _ => t.p.log == s.p.log && t.p.durable == s.p.durable && t.keeper == s.keeper
  {
    hide K.Inv, KeeperAsksOnly, Answered, Asks, Writers.Serial, P.Boundaries;
    P.StepHolds(s.p, event);
  }

  lemma BatchStep(s: System, batch: P.Logged, records: set<AuditEntry>) returns (events: seq<K.Event>)
    requires Good(s) && Enabled(s, Writes(P.WriteBatch(batch))) && Carry(batch.group.ops, records)
    ensures var t := Next(s, Writes(P.WriteBatch(batch))); Good(t) && Follows(s, t, events, records)
  {
    hide K.Inv, P.Holds, P.Boundaries, K.CanRun, K.Run, K.Writes, AuditWrites, KeeperAsksOnly, RunAsked;
    hide Answered, Asks, AsRows, InSequence, Writers.Serial, Next, Enabled, Decide, After, PlanOf, Steps.RunSteps;
    var ops, moment := batch.group.ops, batch.group.moment;
    LiveRows(s);
    WritesTo(s, P.WriteBatch(batch));
    var t := Next(s, Writes(P.WriteBatch(batch)));
    assert t.p.log[..|s.p.log|] == s.p.log && t.p.log[..s.p.durable] == s.p.log[..s.p.durable];
    events := OpsKeep(Surviving(s.p.log), ops, moment, KeeperOf(s), s.keeper, |s.p.log|, records);
  }

  lemma {:induction false} RowsCount(log: seq<K.Write>)
    ensures K.RowsOf(log).first + K.RowsOf(log).next == |log|
  {
    if log != [] {
      RowsCount(log[..|log| - 1]);
    }
  }

  /** Operations that leave the database as it was write nothing of the sequence. */
  lemma NothingIsWritten(before: seq<Asked>, more: seq<Asked>)
    requires KeeperAsksOnly(P.EMPTY, before) && KeeperAsksOnly(P.EMPTY, before + more)
    requires RunAsked(P.EMPTY, before + more) == RunAsked(P.EMPTY, before)
    ensures AuditWrites(P.EMPTY, before + more) == AuditWrites(P.EMPTY, before)
  {
    RunAsRows(before);
    RunAsRows(before + more);
    hide InSequence, RowAt, K.RowsOf, AuditWrites;
    RowsCount(AuditWrites(P.EMPTY, before));
    RowsCount(AuditWrites(P.EMPTY, before + more));
    WritesPrefix(before, more);
  }

  lemma NothingStep(s: System, group: P.Group, records: set<AuditEntry>) returns (events: seq<K.Event>)
    requires Good(s) && Enabled(s, Writes(P.NothingWritten(group))) && Carry(group.ops, records)
    ensures var t := Next(s, Writes(P.NothingWritten(group))); Good(t) && Follows(s, t, events, records)
  {
    hide K.Inv, P.Holds, P.Boundaries, K.CanRun, K.Run, K.Writes, AuditWrites, KeeperAsksOnly, RunAsked;
    hide Answered, Asks, AsRows, InSequence, Writers.Serial, Next, Enabled, Decide, After, PlanOf, Steps.RunSteps;
    LiveRows(s);
    WritesTo(s, P.NothingWritten(group));
    SerialRuns(s.p.live, group.ops, group.moment);
    var before, more := Surviving(s.p.log), Each(group.ops, group.moment);
    RunAskedParts(P.EMPTY, before, more);
    events := OpsKeep(before, group.ops, group.moment, KeeperOf(s), s.keeper, |s.p.log|, records);
    NothingIsWritten(before, more);
  }

  /** How much of the log is durable moves on, or back to the log's end with a crash. */
  lemma DurableMoves(p: P.System, after: P.System)
    requires p.durable <= |p.log| && p.durable <= after.durable <= |after.log| <= |p.log| && after.log == p.log[..|after.log|]
    ensures DurableOf(p) <= DurableOf(after) <= |LogOf(after.log)| <= |LogOf(p.log)|
    ensures LogOf(after.log) == LogOf(p.log)[..|LogOf(after.log)|]
    ensures KeeperAsksOnly(P.EMPTY, Surviving(p.log)) ==> KeeperAsksOnly(P.EMPTY, Surviving(after.log))
  {
    hide LogOf, KeeperAsksOnly;
    LogPrefix(p.log, |after.log|);
    LogPrefix(after.log, after.durable);
    LogPrefix(after.log[..after.durable], p.durable);
    assert after.log[..after.durable][..p.durable] == p.log[..p.durable];
  }

  lemma SyncStep(s: System, event: P.Event, records: set<AuditEntry>) returns (events: seq<K.Event>)
    requires Good(s) && Enabled(s, Writes(event)) && (event.EndSync? || event.Flush?)
    ensures Good(Next(s, Writes(event))) && Follows(s, Next(s, Writes(event)), events, records)
  {
    hide P.Holds, P.Boundaries, KeeperAsksOnly, K.Inv, Follows, LogOf, DurableOf, K.RowsOf, K.KeepOne, K.Longer;
    hide Next, Enabled;
    WritesTo(s, event);
    var t := Next(s, Writes(event));
    assert s.p.log[..|s.p.log|] == s.p.log;
    DurableMoves(s.p, t.p);
    events := [K.Sync(DurableOf(t.p))];
    FollowsOne(s, t, events[0], records);
  }

  lemma CrashStep(s: System, kept: nat, records: set<AuditEntry>) returns (events: seq<K.Event>)
    requires Good(s) && Enabled(s, Writes(P.Crash(kept)))
    ensures Good(Next(s, Writes(P.Crash(kept)))) && Follows(s, Next(s, Writes(P.Crash(kept))), events, records)
  {
    hide P.Holds, P.Boundaries, KeeperAsksOnly, K.Inv, Follows, LogOf, K.RowsOf, K.KeepOne, K.Longer, Next, Enabled;
    WritesTo(s, P.Crash(kept));
    var t := Next(s, Writes(P.Crash(kept)));
    assert t.p.log[..kept] == t.p.log;
    DurableMoves(s.p, t.p);
    events := [K.Crash(|LogOf(t.p.log)|)];
    FollowsOne(s, t, events[0], records);
  }

  lemma IdleStep(s: System, event: P.Event, records: set<AuditEntry>) returns (events: seq<K.Event>)
    requires Good(s) && Enabled(s, Writes(event)) && (event.HandOver? || event.TakeInbox? || event.BeginSync?)
    ensures Good(Next(s, Writes(event))) && Follows(s, Next(s, Writes(event)), events, records)
  {
    hide P.Holds, P.Boundaries, KeeperAsksOnly, K.Inv, LogOf, Next, Enabled;
    WritesTo(s, event);
    events := [];
  }

  // ---- Over one run of both. ----

  /** The operations an event decides. */
  function OpsOf(event: Event): seq<Op> {
    match event
    case Writes(WriteBatch(batch)) => batch.group.ops
    case Writes(NothingWritten(group)) => group.ops
    case _ => []
  }

  predicate CarryAll(events: seq<Event>, records: set<AuditEntry>) {
    forall i | 0 <= i < |events| :: Carry(OpsOf(events[i]), records)
  }

  lemma StepFollows(s: System, event: Event, records: set<AuditEntry>) returns (own: seq<K.Event>)
    requires Good(s) && Enabled(s, event) && Carry(OpsOf(event), records)
    ensures Good(Next(s, event)) && Follows(s, Next(s, event), own, records)
  {
    hide Good, Enabled, Next, Follows, Carry;
    match event {
      case Writes(WriteBatch(batch)) => own := BatchStep(s, batch, records);
      case Writes(NothingWritten(group)) => own := NothingStep(s, group, records);
      case Writes(EndSync(ok)) => own := SyncStep(s, P.EndSync(ok), records);
      case Writes(Flush(to)) => own := SyncStep(s, P.Flush(to), records);
      case Writes(Crash(kept)) => own := CrashStep(s, kept, records);
      case Writes(e) => own := IdleStep(s, e, records);
      case _ => own := OwnStep(s, event, records);
    }
  }

  /** Whatever the two do together is a run of the keeper's machine over what the batches write. */
  lemma {:induction false} RunFollows(s: System, events: seq<Event>,
                                      records: set<AuditEntry>) returns (own: seq<K.Event>)
    requires Good(s) && CanRun(s, events) && CarryAll(events, records)
    ensures Good(Run(s, events)) && Follows(s, Run(s, events), own, records)
    decreases |events|
  {
    hide Good, Enabled, Next, Carry, KeeperOf, K.CanRun, K.Run, K.Writes;
    if events == [] {
      own := [];
      NoneFollows(s, records);
    } else {
      var first := StepFollows(s, events[0], records);
      assert CarryAll(events[1..], records);
      var rest := RunFollows(Next(s, events[0]), events[1..], records);
      K.RunParts(KeeperOf(s), first, rest);
      WritesBoth(first, rest, records);
      own := first + rest;
    }
  }

  lemma NoneFollows(s: System, records: set<AuditEntry>)
    ensures Follows(s, s, [], records)
  {
    hide KeeperOf;
  }

  lemma StartedGood()
    ensures Good(STARTED) && KeeperOf(STARTED) == K.STARTED
  {
    assert P.STARTED.log[..0] == [];
    assert K.Chained(K.NONE_KEPT, map[]);
  }

  /** A record written at `number` is at that number still, or kept as it was written. */
  predicate HeldOrKept(s: System, number: nat, entry: AuditEntry) {
    || Read(s.p.live.db, AuditAt(number)) == Some(AuditV(entry))
    || (entry.id in s.audit.kept && s.audit.kept[entry.id].entry == entry)
  }

  /** In every run of deciding, writing, syncing, moving and crashing, at every point of which the
      keeper asks only what it has come to, and in which the records the operations carry are of
      one identifier each: every record the surviving operations wrote is in the runtime database
      at its number or in the audit database, and the next the keeper is to keep is there. */
  lemma MovedInOneRun(events: seq<Event>, records: set<AuditEntry>)
    requires CanRun(STARTED, events) && CarryAll(events, records) && K.OneEach(records)
    ensures var s := Run(STARTED, events);
            && KeeperAsksOnly(P.EMPTY, Surviving(s.p.log)) && AsRows(s.p.live, LogOf(s.p.log)) && K.Chained(s.audit, s.chains)
            && (forall n: nat | n < |K.Appended(LogOf(s.p.log))| :: HeldOrKept(s, n, K.Appended(LogOf(s.p.log))[n]))
            && (s.keeper.Moving? && s.keeper.number < s.keeper.until ==> AuditAt(s.keeper.number) in s.p.live.db)
  {
    StartedGood();
    var own := RunFollows(STARTED, events, records);
    var s := Run(STARTED, events);
    hide Run, CanRun, K.Run, K.CanRun, K.Writes;
    K.MovedOnce(own, records);
    LiveRows(s);
    var k := KeeperOf(s);
    hide P.Holds, P.Boundaries, KeeperAsksOnly, K.Inv, K.RowsOf, K.Appended, LogOf, DurableOf, InSequence, K.Chained;
    forall n: nat | n < |K.Appended(k.log)| ensures HeldOrKept(s, n, K.Appended(k.log)[n]) {
      assert K.Stays(k, n) && RowAt(s.p.live, K.RowsOf(k.log), n);
    }
    if s.keeper.Moving? && s.keeper.number < s.keeper.until {
      assert RowAt(s.p.live, K.RowsOf(k.log), s.keeper.number);
    }
  }
}
