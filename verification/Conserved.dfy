/** Every operation leaves every queue in order (`queue.rs`, `hold.rs`, `failed.rs`, `dead.rs`),
    and a hand-on moves the Messages it names and no other (`hand_on.rs`, `claim.rs`). */
module Conserved {
  import opened Wrappers
  import opened Records
  import opened Queues
  import opened Holds
  import opened Steps
  import opened Operations
  import opened Shapes
  import opened Frames
  import opened Lines
  import opened Spots
  import opened Writers
  import Settling
  import opened Once

  // ---- Every queue in order, after every operation. ----

  /** A step that takes a dead Message out names the place its index has. */
  ghost predicate TakesIndexed(db: Db, step: Step) {
    step.TakeDead? ==> Read(db, By(DeadLine, step.queue, step.about)) == Some(PlaceV(step.place))
  }

  lemma TakeDeadSound(db: Db, queue: Id, about: Id, place: nat)
    requires Sound(db) && TakesIndexed(db, TakeDead(queue, about, place))
    ensures DoStep(db, TakeDead(queue, about, place)).Ok?
    ensures Sound(DoStep(db, TakeDead(queue, about, place)).value)
    ensures Entry(DeadLine, queue, place) !in DoStep(db, TakeDead(queue, about, place)).value
  {
    assert LineOk(db, DeadLine, queue);
    TakeOutSound(db, DeadLine, queue, place, Some(TakenOutV));
    TakeOutTyped(db, DeadLine, queue, place);
  }

  lemma StepSound(db: Db, step: Step)
    requires Sound(db) && TakesIndexed(db, step)
    ensures DoStep(db, step).Ok? && Sound(DoStep(db, step).value)
  {
    StepTyped(db, step);
    match step {
      case Count(record, places) => CountSpots(db, record, places, 0, 0);
      case Leave(queue, journey) => LeaveSpots(db, queue, journey, 0, 0);
      case Join(hold) => KeepSpots(db, hold, 0, 0);
      case MoveToEnd(queue, journey) => EndSpots(db, queue, journey, 0, 0);
      case Fail(journey, failure, at) => FailSpots(db, journey, failure, at, 0, 0);
      case Unfail(queue, journey) => UnfailSpots(db, queue, journey, 0, 0);
      case Defer(queue, journey, due) => DeferSpots(db, queue, journey, due, 0, 0);
      case KeepDead(dead) => PlaceSound(db, DeadLine, dead.queue, dead.message, FreshDead(dead));
      case TakeDead(queue, about, place) => TakeDeadSound(db, queue, about, place);
      case _ => BesideSpots(db, DoStep(db, step).value, 0, 0);
    }
  }

  /** A step that counts a holder's last Journey closed lets go of the holder's places. */
  predicate StepReleases(db: Db, step: Step, queue: Id, journey: Id) {
    step.Count? && CountReleases(db, step.record, step.places, queue, journey)
  }

  /** The records of a queue change as the queue does: each step, at every Message. */
  lemma StepRefines(db: Db, step: Step, queue: Id, journey: Id)
    requires Sound(db) && TakesIndexed(db, step)
    ensures DoStep(db, step).Ok? && Sound(DoStep(db, step).value)
    ensures var after := DoStep(db, step).value; var held := HeldOf(db, queue, journey);
            && HeldOf(after, queue, journey)
               == (if StepReleases(db, step, queue, journey) then None
                   else HeldAfter(step, queue, journey, held, NextOf(db, HeldLine, queue)))
            && FailedOf(after, queue, journey)
               == FailedAfter(step, queue, journey, held, FailedOf(db, queue, journey), NextOf(db, FailedLine, queue))
  {
    StepSound(db, step);
    match step {
      case Count(record, places) => CountSpots(db, record, places, queue, journey);
      case Leave(q, j) => LeaveSpots(db, q, j, queue, journey);
      case Join(hold) => KeepSpots(db, hold, queue, journey);
      case MoveToEnd(q, j) => EndSpots(db, q, j, queue, journey);
      case Fail(j, failure, at) => FailSpots(db, j, failure, at, queue, journey);
      case Unfail(q, j) => UnfailSpots(db, q, j, queue, journey);
      case Defer(q, j, due) => DeferSpots(db, q, j, due, queue, journey);
      case _ => OthersRefine(db, step, queue, journey);
    }
  }

  lemma OthersRefine(db: Db, step: Step, queue: Id, journey: Id)
    requires forall key | OfLine(key, HeldLine) || OfLine(key, FailedLine) :: !MayWrite(step, key)
    requires DoStep(db, step).Ok?
    ensures HeldOf(DoStep(db, step).value, queue, journey) == HeldOf(db, queue, journey)
    ensures FailedOf(DoStep(db, step).value, queue, journey) == FailedOf(db, queue, journey)
  {
    var after := DoStep(db, step).value;
    forall key | OfLine(key, HeldLine) || OfLine(key, FailedLine) ensures Read(db, key) == Read(after, key) {
      StepLeaves(db, step, key);
    }
    assert SameLine(db, after, HeldLine, queue) && SameLine(db, after, FailedLine, queue);
    SameReads(db, after, queue, journey);
  }

  lemma {:induction false} RunSound(db: Db, steps: seq<Step>)
    requires Sound(db) && forall step | step in steps :: !step.TakeDead?
    ensures RunSteps(db, steps).Ok? && Sound(RunSteps(db, steps).value)
    decreases |steps|
  {
    if steps != [] {
      assert steps[0] in steps;
      StepSound(db, steps[0]);
      RunSound(DoStep(db, steps[0]).value, steps[1..]);
    }
  }

  lemma HandOnTakesNoDead(db: Db, h: HandOn, now: int)
    ensures HandOnPlan(db, h, now).Ok? ==> forall step | step in HandOnPlan(db, h, now).value.steps :: !step.TakeDead?
  {
    hide HandOnSteps;
    var stored := StoredOn(db, h.claim.journey);
    if stored.Ok? && stored.value.Some? {
      HandOnStepsAre(h, stored.value.value.claim, now);
      var steps := HandOnSteps(h, stored.value.value.claim, now);
      forall step | step in steps ensures !step.TakeDead? {
        var i :| 0 <= i < |steps| && steps[i] == step;
      }
    }
  }

  lemma PublishTakesNoDead(p: Publication, next: nat, moment: Moment, until: int)
    ensures forall step | step in PublishSteps(p, next, moment, until) :: !step.TakeDead?
  {
    PublicationStepsAre(p);
    forall step | step in PublishSteps(p, next, moment, until) ensures !step.TakeDead? {
      if step in PublicationSteps(p) {
      } else {
      }
    }
  }

  lemma PlanTakesNoDead(ledger: Ledger, asked: Asked)
    requires !asked.op.Replaying?
    ensures var plan := PlanOf(ledger.db, ledger.next, asked.op, asked.moment);
            plan.Ok? ==> forall step | step in plan.value.steps :: !step.TakeDead?
  {
    hide Renewed, Current, StoredOn, HandOnSteps, PublishSteps, PublicationSteps, Grants, StillHeld, RunSteps;
    match asked.op {
      case HandingOn(h) => HandOnTakesNoDead(ledger.db, h, asked.moment.now);
      case Turning(t) =>
        HandOnTakesNoDead(ledger.db, t.handOn, asked.moment.now);
        TurnStepsAre(t);
      case Publishing(p) =>
        PublishTakesNoDead(p, ledger.next, asked.moment, SaturatingAdd(asked.moment.now, p.leaseNanos));
      case _ =>
    }
  }

  lemma ReplaySound(db: Db, r: Replay, place: nat, next: nat)
    requires Sound(db) && Read(db, By(DeadLine, r.queue, r.message)) == Some(PlaceV(place))
    ensures RunSteps(db, ReplaySteps(r, place, next)).Ok? && Sound(RunSteps(db, ReplaySteps(r, place, next)).value)
  {
    ReplayStepsAre(r, place, next);
    var steps := ReplaySteps(r, place, next);
    StepSound(db, steps[0]);
    RunSound(DoStep(db, steps[0]).value, steps[1..]);
  }

  lemma AfterSound(ledger: Ledger, asked: Asked)
    requires Sound(ledger.db)
    ensures Sound(After(ledger, asked.op, asked.moment).db)
  {
    hide RunSteps, ReplaySteps, Sound;
    var plan := PlanOf(ledger.db, ledger.next, asked.op, asked.moment);
    if asked.op.Replaying? {
      var r := asked.op.replay;
      if plan.Ok? && plan.value.steps != [] {
        ReplaySound(ledger.db, r, PlacedOf(ledger.db, DeadLine, r.queue, r.message).value.place, ledger.next);
      } else if plan.Ok? {
        RunsNone(ledger.db);
      }
    } else if plan.Ok? {
      PlanTakesNoDead(ledger, asked);
      RunSound(ledger.db, plan.value.steps);
    }
  }

  /** In every run from an empty database, every queue is in order: each entry at its own
      place, found by what it is about, between its first and its next, and counted. */
  lemma {:induction false} RunsSound(ledger: Ledger, asked: seq<Asked>)
    requires Sound(ledger.db)
    ensures Sound(RunAsked(ledger, asked).db)
    decreases |asked|
  {
    if asked != [] {
      AfterSound(ledger, asked[0]);
      RunsSound(After(ledger, asked[0].op, asked[0].moment), asked[1..]);
    }
  }

  lemma EveryRunSound(asked: seq<Asked>)
    ensures Sound(RunAsked(Ledger(map[], 0), asked).db)
  {
    EmptySound();
    RunsSound(Ledger(map[], 0), asked);
  }

  /** So whatever was committed, another group can be: every entry's place is one its column holds
      as long as its queue's next is. */
  lemma SoundInWidth(db: Db)
    requires Sound(db) && forall kind, queue :: NextOf(db, kind, queue) <= U64_MAX
    ensures Settling.InWidth(db)
  {
    forall key | key in db && key.Entry? ensures key.place < U64_MAX {
      assert LineOk(db, key.kind, key.queue);
      assert NextOf(db, key.kind, key.queue) <= U64_MAX;
      assert Entry(key.kind, key.queue, key.place) in db;
    }
  }
}
