/** The queues whose places a group of operations writes, as the writer settles them
    (`commit.rs`, `due.rs`): those of the entries its steps put, and no other. */
module Touching {
  import opened Wrappers
  import opened Records
  import opened Queues
  import opened Holds
  import Origins
  import opened Steps
  import opened Operations
  import opened Writers
  import opened Shapes
  import opened Lines
  import opened Spots
  import opened Conserved
  import opened Once
  import opened Laid

  /** The queues of held Messages among what is put. */
  function HeldQueues(puts: seq<Put>): set<Id> {
    set put | put in puts && put.kind == HeldLine :: put.queue
  }

  lemma HeldQueuesBoth(first: seq<Put>, rest: seq<Put>)
    ensures HeldQueues(first + rest) == HeldQueues(first) + HeldQueues(rest)
  {
  }

  lemma HeldQueuesOne(put: Put)
    ensures HeldQueues([put]) == if put.kind == HeldLine then {put.queue} else {}
  {
    assert put in [put];
  }

  lemma HeldQueuesNone()
    ensures HeldQueues([]) == {}
  {
  }

  lemma PlaceTouched(db: Db, queue: Id, about: Id, made: Fresh)
    requires Sound(db)
    ensures HeldQueues(PlacePuts(db, HeldLine, queue, about, made)) == PlaceTouches(db, HeldLine, queue, about)
  {
    hide HeldQueues;
    assert LineOk(db, HeldLine, queue);
    HeldQueuesNone();
    if By(HeldLine, queue, about) !in db {
      HeldQueuesOne(PlacePuts(db, HeldLine, queue, about, made)[0]);
    }
  }

  lemma OutTouched(db: Db, queue: Id, journey: Id)
    requires Sound(db)
    ensures HeldQueues(OutPuts(db, HeldLine, queue, journey)) == HeldTouches(db, queue, journey)
  {
    hide HeldQueues, Sound;
    HeldIsPlaced(db, queue, journey);
    HeldQueuesNone();
    if HeldOf(db, queue, journey).Some? {
      HeldQueuesOne(OutPuts(db, HeldLine, queue, journey)[0]);
    }
  }

  lemma EndTouched(db: Db, queue: Id, journey: Id)
    requires Sound(db)
    ensures HeldQueues(EndPuts(db, queue, journey)) == EndTouches(db, queue, journey)
  {
    hide HeldQueues, LineOk;
    HeldIsPlaced(db, queue, journey);
    HeldQueuesNone();
    OutTouched(db, queue, journey);
    if HeldOf(db, queue, journey).Some? {
      var held := HeldOf(db, queue, journey).value;
      TakeOutTyped(db, HeldLine, queue, held.sequence);
      var out := OutPuts(db, HeldLine, queue, journey);
      var put := EndPuts(db, queue, journey)[1];
      assert EndPuts(db, queue, journey) == out + [put];
      HeldQueuesBoth(out, [put]);
      HeldQueuesOne(put);
    } else {
      assert EndPuts(db, queue, journey) == OutPuts(db, HeldLine, queue, journey) + [] == [];
    }
  }

  lemma MarkTouched(db: Db, queue: Id, journey: Id, failed: bool)
    requires Sound(db) && HeldOf(db, queue, journey).Some?
    ensures HeldQueues(MarkPuts(db, queue, journey, failed))
         == MarkTouches(db, queue, HeldOf(db, queue, journey).value.sequence, failed)
  {
    hide HeldQueues, Sound;
    HeldIsPlaced(db, queue, journey);
    HeldQueuesNone();
    if HeldOf(db, queue, journey).value.failed != failed {
      HeldQueuesOne(MarkPuts(db, queue, journey, failed)[0]);
    }
  }

  lemma FailTouched(db: Db, journey: Id, failure: Failure, at: int)
    requires Sound(db)
    ensures HeldQueues(StepPuts(db, Fail(journey, failure, at))) == EnterTouches(db, journey, failure.queue)
  {
    hide HeldQueues, Sound;
    var queue := failure.queue;
    HeldIsPlaced(db, queue, journey);
    HeldQueuesNone();
    if HeldOf(db, queue, journey).Some? {
      var place := HeldOf(db, queue, journey).value.sequence;
      MarkTouched(db, queue, journey, true);
      var puts := PlacePuts(db, FailedLine, queue, journey, FreshFailed(journey, place, failure.reason, at));
      HeldQueuesBoth(MarkPuts(db, queue, journey, true), puts);
      if puts != [] {
        HeldQueuesOne(puts[0]);
      }
    }
  }

  lemma UnfailTouched(db: Db, queue: Id, journey: Id)
    requires Sound(db)
    ensures HeldQueues(StepPuts(db, Unfail(queue, journey))) == ClearTouches(db, queue, journey)
  {
    hide HeldQueues, Sound;
    HeldQueuesNone();
    UnindexSpots(db, queue, journey, queue, journey);
    var out := Unindexed(db, queue, journey).value;
    HeldIsPlaced(db, queue, journey);
    HeldIsPlaced(out, queue, journey);
    assert HeldOf(out, queue, journey) == HeldOf(db, queue, journey);
    var puts := OutPuts(db, FailedLine, queue, journey);
    HeldQueuesBoth(puts, MarkPuts(db, queue, journey, false));
    if puts != [] {
      HeldQueuesOne(puts[0]);
    }
    if HeldOf(db, queue, journey).Some? {
      MarkTouched(out, queue, journey, false);
    }
  }

  lemma DeferTouched(db: Db, queue: Id, journey: Id, due: int)
    requires Sound(db)
    ensures HeldQueues(DeferPuts(db, queue, journey, due)) == HeldTouches(db, queue, journey)
  {
    hide HeldQueues, Sound;
    HeldIsPlaced(db, queue, journey);
    HeldQueuesNone();
    if HeldOf(db, queue, journey).Some? {
      HeldQueuesOne(DeferPuts(db, queue, journey, due)[0]);
    }
  }

  lemma {:induction false} ReleaseTouched(db: Db, queues: seq<Id>, holder: Id)
    requires Sound(db)
    ensures HeldQueues(ReleasePuts(db, queues, holder)) == Origins.ReleaseTouches(db, queues, holder)
    decreases |queues|
  {
    hide HeldQueues, Sound;
    HeldQueuesNone();
    if queues != [] {
      OutTouched(db, queues[0], holder);
      LeaveComes(db, queues[0], holder);
      var left := LetGoOf(db, queues[0], holder).value;
      ReleaseTouched(left, queues[1..], holder);
      HeldQueuesBoth(OutPuts(db, HeldLine, queues[0], holder), ReleasePuts(left, queues[1..], holder));
    }
  }

  lemma RoleTouched(db: Db, was: bool, holder: Option<Id>, open: bool, places: seq<Hold>)
    requires Sound(db)
    ensures HeldQueues(RolePuts(db, was, holder, open, places)) == Origins.RoleTouches(db, was, holder, open, places)
  {
    hide HeldQueues, Sound;
    HeldQueuesNone();
    if holder.Some? && Origins.OriginAt(db, holder.value).Ok? {
      var origin := Origins.OriginAt(db, holder.value).value;
      ReleaseTouched(db, Origins.WithQueues(origin.queues, places, holder.value), holder.value);
    }
  }

  lemma CountTouched(db: Db, record: JourneyRecord, places: seq<Hold>)
    requires Sound(db)
    ensures HeldQueues(CountPuts(db, record, places)) == Origins.RecordTouches(db, record, places)
  {
    CountSpots(db, record, places, 0, 0);
    hide HeldQueues, Sound;
    var before := Origins.JourneyOf(db, record.journey).value;
    var was, group := Origins.WasOrigin(before, record), Origins.WasGroup(before, record);
    RoleComes(db, was, record.origin, record.open, places);
    RoleTouched(db, was, record.origin, record.open, places);
    var first := Origins.CountRole(db, was, record.origin, record.open, places).value;
    RoleTouched(first, group, record.groupDelivery, record.groupOpen, places);
    HeldQueuesBoth(RolePuts(db, was, record.origin, record.open, places),
                   RolePuts(first, group, record.groupDelivery, record.groupOpen, places));
  }

  lemma DeadTouched(db: Db, step: Step)
    requires step.KeepDead? || step.TakeDead?
    ensures HeldQueues(StepPuts(db, step)) == {}
  {
    hide HeldQueues;
    HeldQueuesNone();
    if StepPuts(db, step) != [] {
      HeldQueuesOne(StepPuts(db, step)[0]);
    }
  }

  lemma StepTouched(db: Db, step: Step)
    requires Sound(db)
    ensures HeldQueues(StepPuts(db, step)) == StepTouches(db, step)
  {
    hide HeldQueues, Sound;
    HeldQueuesNone();
    match step {
      case Count(record, places) => CountTouched(db, record, places);
      case Leave(queue, journey) => OutTouched(db, queue, journey);
      case Join(hold) => PlaceTouched(db, hold.queue, hold.journey, FreshHeld(hold));
      case MoveToEnd(queue, journey) => EndTouched(db, queue, journey);
      case Fail(journey, failure, at) => FailTouched(db, journey, failure, at);
      case Unfail(queue, journey) => UnfailTouched(db, queue, journey);
      case Defer(queue, journey, due) => DeferTouched(db, queue, journey, due);
      case KeepDead(_) => DeadTouched(db, step);
      case TakeDead(_, _, _) => DeadTouched(db, step);
      case _ =>
    }
  }

  lemma {:induction false} RunTouched(db: Db, steps: seq<Step>)
    requires Sound(db) && (steps != [] ==> TakesIndexed(db, steps[0]))
    requires forall i | 0 < i < |steps| :: !steps[i].TakeDead?
    ensures HeldQueues(RunPuts(db, steps)) == RunTouches(db, steps)
    decreases |steps|
  {
    hide Sound, HeldQueues, StepPuts, StepTouches, DoStep;
    if steps == [] {
      HeldQueuesNone();
    } else {
      StepComes(db, steps[0]);
      StepTouched(db, steps[0]);
      var after := DoStep(db, steps[0]).value;
      assert steps[1..] != [] ==> steps[1..][0] == steps[1] && !steps[1].TakeDead?;
      assert forall i | 0 < i < |steps[1..]| :: steps[1..][i] == steps[i + 1];
      RunTouched(after, steps[1..]);
      HeldQueuesBoth(StepPuts(db, steps[0]), RunPuts(after, steps[1..]));
    }
  }

  lemma AskedTouched(ledger: Ledger, asked: Asked)
    requires Sound(ledger.db)
    ensures HeldQueues(AskedPuts(ledger, asked)) == OpTouches(ledger, asked.op, asked.moment)
  {
    hide Sound, PlanOf, RunPuts, RunTouches, RunSteps, HeldQueues;
    HeldQueuesNone();
    var plan := PlanOf(ledger.db, ledger.next, asked.op, asked.moment);
    if plan.Ok? {
      PlanFits(ledger, asked);
      RunTouched(ledger.db, plan.value.steps);
      RunComes(ledger.db, plan.value.steps);
    }
  }

  /** The queues a batch must find the firsts of again are those of the held Messages its
      operations put in their places or take out of them, one after another. */
  lemma {:induction false} GroupTouched(ledger: Ledger, ops: seq<Op>, moment: Moment)
    requires Sound(ledger.db)
    ensures SerialTouches(ledger, ops, moment) == HeldQueues(GroupPuts(ledger, Each(ops, moment)))
    decreases |ops|
  {
    hide Sound, AskedPuts, OpTouches, After, HeldQueues;
    if ops == [] {
      HeldQueuesNone();
    } else {
      var asked := Each(ops, moment);
      assert asked[0] == Asked(ops[0], moment) && asked[1..] == Each(ops[1..], moment);
      AfterSound(ledger, asked[0]);
      AskedTouched(ledger, asked[0]);
      GroupTouched(After(ledger, ops[0], moment), ops[1..], moment);
      HeldQueuesBoth(AskedPuts(ledger, asked[0]), GroupPuts(After(ledger, ops[0], moment), asked[1..]));
    }
  }
}
