/** The embedded Storage node's one writer (`commit.rs`): a group of operations decided as one
    batch, each on a stage of its own, and written as one. */
module Writers {
  import opened Wrappers
  import opened Records
  import opened Batches
  import opened Queues
  import opened Operations
  import opened Deciding
  import opened Settling
  import opened Shapes
  import Due

  // ---- One operation after another, each written on its own. ----

  datatype Ran = Ran(after: Ledger, answers: seq<Result<Done>>)

  function AnswerOf(decision: Result<Decision>): Result<Done> {
    match decision
    case Ok(decided) => Ok(decided.done)
    case Err(error) => Err(error)
  }

  function Serial(ledger: Ledger, ops: seq<Op>, moment: Moment): Ran
    decreases |ops|
  {
    if ops == [] then Ran(ledger, [])
    else
      var rest := Serial(After(ledger, ops[0], moment), ops[1..], moment);
      Ran(rest.after, [AnswerOf(Decide(ledger, ops[0], moment))] + rest.answers)
  }

  /** The queues whose held Messages' places a group writes, run one operation after another. */
  function SerialTouches(ledger: Ledger, ops: seq<Op>, moment: Moment): set<Id>
    decreases |ops|
  {
    if ops == [] then {}
    else OpTouches(ledger, ops[0], moment) + SerialTouches(After(ledger, ops[0], moment), ops[1..], moment)
  }

  function Resumed(answers: seq<Result<Done>>, rest: Ran): Ran {
    Ran(rest.after, answers + rest.answers)
  }

  /** One operation decided on a stage over what those before it wrote, and the stage taken
      whole or dropped. */
  method DecideOne(batch: Batch, next: nat, op: Op, moment: Moment)
    returns (answer: Result<Done>, after: nat)
    requires batch.Valid() && batch.below == null
    modifies batch`written
    ensures batch.Valid()
    ensures answer == AnswerOf(Decide(Ledger(old(batch.View()), next), op, moment))
    ensures Ledger(batch.View(), after) == After(Ledger(old(batch.View()), next), op, moment)
    ensures next <= after && (answer.Err? ==> batch.written == old(batch.written))
    ensures batch.Touches() == old(batch.Touches()) + OpTouches(Ledger(old(batch.View()), next), op, moment)
  {
    after := next;
    var stage := new Batch.Staged(batch);
    var audits;
    answer, audits := DoDecide(stage, next, op, moment);
    if answer.Ok? {
      batch.Absorb(stage);
      after := next + audits;
    }
  }

  lemma SerialUnrolls(ledger: Ledger, ops: seq<Op>, moment: Moment, i: nat, answers: seq<Result<Done>>)
    requires i < |ops|
    ensures Resumed(answers, Serial(ledger, ops[i..], moment))
         == Resumed(answers + [AnswerOf(Decide(ledger, ops[i], moment))],
                    Serial(After(ledger, ops[i], moment), ops[i + 1..], moment))
    ensures SerialTouches(ledger, ops[i..], moment)
         == OpTouches(ledger, ops[i], moment) + SerialTouches(After(ledger, ops[i], moment), ops[i + 1..], moment)
  {
    assert ops[i..][0] == ops[i] && ops[i..][1..] == ops[i + 1..];
    var rest := Serial(After(ledger, ops[i], moment), ops[i + 1..], moment);
    var answer := AnswerOf(Decide(ledger, ops[i], moment));
    assert answers + ([answer] + rest.answers) == (answers + [answer]) + rest.answers;
  }

  lemma SerialEnds(ledger: Ledger, ops: seq<Op>, moment: Moment, answers: seq<Result<Done>>)
    ensures Resumed([], Serial(ledger, ops, moment)) == Serial(ledger, ops, moment)
    ensures Resumed(answers, Serial(ledger, ops[|ops|..], moment)) == Ran(ledger, answers)
    ensures SerialTouches(ledger, ops[|ops|..], moment) == {}
  {
  }

  /** What the group comes to decided in one batch: what it comes to one after another. */
  method DecideAll(batch: Batch, next: nat, ops: seq<Op>, moment: Moment)
    returns (answers: seq<Result<Done>>, after: nat)
    requires batch.Valid() && batch.below == null
    modifies batch`written
    ensures batch.Valid()
    ensures Ran(Ledger(batch.View(), after), answers) == Serial(Ledger(old(batch.View()), next), ops, moment)
    ensures next <= after && ((forall answer | answer in answers :: answer.Err?) ==> batch.written == old(batch.written))
    ensures batch.Touches() == old(batch.Touches()) + SerialTouches(Ledger(old(batch.View()), next), ops, moment)
  {
    hide Serial, SerialTouches, OpTouches, Touched, Decide, After, Resumed;
    answers, after := [], next;
    ghost var start := Ledger(batch.View(), next);
    SerialEnds(start, ops, moment, []);
    assert ops[0..] == ops;
    for i := 0 to |ops|
      invariant batch.Valid()
      invariant Serial(start, ops, moment) == Resumed(answers, Serial(Ledger(batch.View(), after), ops[i..], moment))
      invariant next <= after
      invariant old(batch.Touches()) + SerialTouches(start, ops, moment)
             == batch.Touches() + SerialTouches(Ledger(batch.View(), after), ops[i..], moment)
      invariant (forall answer | answer in answers :: answer.Err?) ==> batch.written == old(batch.written)
    {
      SerialUnrolls(Ledger(batch.View(), after), ops, moment, i, answers);
      var answer;
      answer, after := DecideOne(batch, after, ops[i], moment);
      answers := answers + [answer];
    }
    SerialEnds(Ledger(batch.View(), after), ops, moment, answers);
  }

  // ---- A group committed. ----

  lemma {:induction false} SerialTyped(ledger: Ledger, ops: seq<Op>, moment: Moment)
    requires Typed(ledger.db)
    ensures Typed(Serial(ledger, ops, moment).after.db)
    ensures |Serial(ledger, ops, moment).answers| == |ops|
    decreases |ops|
  {
    if ops != [] {
      DecideTyped(ledger, ops[0], moment);
      SerialTyped(After(ledger, ops[0], moment), ops[1..], moment);
    }
  }

  /** A held Message of `queue` reads otherwise after than before. */
  ghost predicate Changes(before: Db, after: Db, queue: Id) {
    exists place :: Read(before, Entry(HeldLine, queue, place)) != Read(after, Entry(HeldLine, queue, place))
  }

  lemma ChangedIsTouched(batch: Batch, queue: Id, place: nat)
    requires batch.Valid() && batch.below == null
    requires Read(batch.store, Entry(HeldLine, queue, place)) != Read(batch.View(), Entry(HeldLine, queue, place))
    ensures queue in batch.Touches()
  {
    var key := Entry(HeldLine, queue, place);
    assert key in batch.written;
  }

  /** Every operation of a failed batch answered with its failure. */
  function Refusals(ops: seq<Op>, error: Error): seq<Result<Done>> {
    seq(|ops|, _ => Err(error))
  }

  lemma RefusedIsNotRun(ops: seq<Op>, answers: seq<Result<Done>>, error: Error)
    requires exists answer :: answer in answers && answer.Ok?
    ensures answers != Refusals(ops, error)
  {
    var answer :| answer in answers && answer.Ok?;
    assert answer !in Refusals(ops, error);
  }

  class Writer {
    var db: Db
    var cells: Cells
    var next: nat

    /** Each readable cell names its queue's true firsts. */
    ghost predicate Valid()
      reads this
    {
      CellsExact(db, cells)
    }

    ghost function Stands(): Ledger
      reads this
    {
      Ledger(db, next)
    }

    /** Over an empty engine. */
    constructor ()
      ensures Valid() && Stands() == Ledger(map[], 0) && cells == map[]
    {
      db, cells, next := map[], map[], 0;
      new;
      Due.UnkeptIsExact();
      forall queue ensures EntriesOf(db, queue) == map[] {
      }
    }

    /** A group decided in one batch: run one after another, its queues' firsts found again; or
        none of it written and every operation answered one failure. Over records of their
        shapes, the first exactly where the firsts of each queue whose places the group writes
        can be read: each queue it leaves otherwise than it was is one, and others written back
        as they were may be. */
    method Commit(ops: seq<Op>, moment: Moment)
      returns (answers: seq<Result<Done>>, empty: bool)
      requires Valid() && InWidth(db)
      modifies this
      ensures Valid()
      ensures Ran(Stands(), answers) == Serial(old(Stands()), ops, moment)
           || (Stands() == old(Stands()) && cells == old(cells) && exists error :: answers == Refusals(ops, error))
      ensures Typed(old(db)) ==>
                (Ran(Stands(), answers) == Serial(old(Stands()), ops, moment)
                 <==> Readable(old(cells), SerialTouches(old(Stands()), ops, moment)))
      ensures Ran(Stands(), answers) == Serial(old(Stands()), ops, moment) ==>
                Readable(old(cells), SerialTouches(old(Stands()), ops, moment))
      ensures forall queue | Changes(old(db), Serial(old(Stands()), ops, moment).after.db, queue) ::
                queue in SerialTouches(old(Stands()), ops, moment)
      ensures forall queue :: CellOf(cells, queue).Ok? == CellOf(old(cells), queue).Ok?
      ensures empty ==> Stands() == old(Stands())
    {
      var batch := new Batch.Empty(db);
      var after;
      answers, after := DecideAll(batch, next, ops, moment);
      ghost var ran := Ran(Ledger(batch.View(), after), answers);
      assert ran == Serial(old(Stands()), ops, moment);
      if Typed(db) {
        SerialTyped(Stands(), ops, moment);
      }
      empty := batch.written == map[] && after == next;
      ghost var touched := SerialTouches(Stands(), ops, moment);
      assert touched == batch.Touches();
      forall queue | Changes(db, batch.View(), queue) ensures queue in touched {
        var place :| Read(db, Entry(HeldLine, queue, place)) != Read(batch.View(), Entry(HeldLine, queue, place));
        ChangedIsTouched(batch, queue, place);
      }
      var settled := SettleAll(batch, cells);
      if settled.Err? {
        if touched != {} {
          RefusedIsNotRun(ops, ran.answers, settled.error);
        }
        answers := Refusals(ops, settled.error);
        return;
      }
      db, cells, next := Overlay(db, batch.written), settled.value, after;
    }

    /** A part of a queue read from where its firsts are: what recomputing it all finds. */
    method ReadDue(queue: Id, part: Due.Part, start: Due.Order.Pos, most: nat, now: int)
      returns (read: Result<Due.DueQueue>)
      requires Valid()
      ensures read == match CellOf(cells, queue)
                      case Ok(_) => Ok(Due.Naive(EntriesOf(db, queue), part, start, most, now))
                      case Err(error) => Err(error)
    {
      var cell :- CellOf(cells, queue);
      Due.ExactIsNotPast(EntriesOf(db, queue), cell);
      var found := Due.ReadDue(EntriesOf(db, queue), cell, part, start, most, now);
      return Ok(found);
    }
  }
}
