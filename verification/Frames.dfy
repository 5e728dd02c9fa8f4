/** What each step may write, and that it writes nothing else. */
module Frames {
  import opened Wrappers
  import opened Records
  import opened Queues
  import opened Holds
  import opened Origins
  import opened Steps
  import opened Operations

  predicate OfLine(key: Key, kind: Kind) {
    match key
    case Entry(k, _, _) => k == kind
    case By(k, _, _) => k == kind
    case PlacesAt(k, _) => k == kind
    case _ => false
  }

  predicate MayWrite(step: Step, key: Key) {
    match step
    case Count(record, _) => OfLine(key, HeldLine) || key.OriginOf?
    case PutJourney(record) => key == JourneyAt(record.journey)
    case PutMessage(message) => key == MessageAt(message.message)
    case Leave(_, _) => OfLine(key, HeldLine)
    case Join(_) => OfLine(key, HeldLine)
    case MoveToEnd(_, _) => OfLine(key, HeldLine)
    case Fail(_, _, _) => OfLine(key, HeldLine) || OfLine(key, FailedLine)
    case Unfail(_, _) => OfLine(key, HeldLine) || OfLine(key, FailedLine)
    case Defer(_, _, _) => OfLine(key, HeldLine)
    case SetClaim(stored) => key == ClaimOn(stored.claim.journey)
    case GrantClaim(asked, _, _, _) => key == ClaimOn(asked.journey)
    case RenewClaim(held, _) => key == ClaimOn(held.journey)
    case KeepDead(_) => OfLine(key, DeadLine)
    case TakeDead(_, _, _) => OfLine(key, DeadLine)
    case PutPublished(publication) => key == PublishedAt(publication.message.message)
    case PutInstance(instance) => key == InstanceAt(instance.instance)
    case PutKey(k) => key == InstanceKeyAt(k.key)
    case DropKey(k) => key == InstanceKeyAt(k.key)
    case PutAudit(number, _) => key == AuditAt(number)
    case DropAudit(number) => key == AuditAt(number) || key == KeptAt
  }

  /** Where the result is a database, it reads the same at `key`. */
  ghost predicate Leaves(db: Db, result: Result<Db>, key: Key) {
    result.Ok? ==> Read(result.value, key) == Read(db, key)
  }

  lemma LetGoLeaves(db: Db, queue: Id, journey: Id, key: Key)
    requires !OfLine(key, HeldLine)
    ensures Leaves(db, LetGoOf(db, queue, journey), key)
  {
  }

  lemma {:induction false} ReleaseLeaves(db: Db, queues: seq<Id>, holder: Id, key: Key)
    requires !OfLine(key, HeldLine)
    ensures Leaves(db, ReleaseAll(db, queues, holder), key)
    decreases |queues|
  {
    if queues != [] {
      LetGoLeaves(db, queues[0], holder, key);
      var left := LetGoOf(db, queues[0], holder);
      if left.Ok? {
        ReleaseLeaves(left.value, queues[1..], holder, key);
      }
    }
  }

  lemma CountRoleLeaves(db: Db, was: bool, holder: Option<Id>, opens: bool, places: seq<Hold>, key: Key)
    requires !OfLine(key, HeldLine) && !key.OriginOf?
    ensures Leaves(db, CountRole(db, was, holder, opens, places), key)
  {
    if holder.Some? {
      var origin := OriginAt(db, holder.value);
      if origin.Ok? {
        ReleaseLeaves(db, WithQueues(origin.value.queues, places, holder.value), holder.value, key);
      }
    }
  }

  lemma CountedLeaves(db: Db, record: JourneyRecord, places: seq<Hold>, key: Key)
    requires !OfLine(key, HeldLine) && !key.OriginOf?
    ensures Leaves(db, Counted(db, record, places), key)
  {
    var before := JourneyOf(db, record.journey);
    if before.Ok? {
      CountRoleLeaves(db, WasOrigin(before.value, record), record.origin, record.open, places, key);
      var first := CountRole(db, WasOrigin(before.value, record), record.origin, record.open, places);
      if first.Ok? {
        CountRoleLeaves(first.value, WasGroup(before.value, record), record.groupDelivery, record.groupOpen, places, key);
      }
    }
  }

  lemma StepLeaves(db: Db, step: Step, key: Key)
    requires !MayWrite(step, key)
    ensures Leaves(db, DoStep(db, step), key)
  {
    hide Counted, LetGoOf, ToTheEnd, Enter, Clear, Place, TakeOut, Wait;
    match step {
      case Count(record, places) => CountedLeaves(db, record, places, key);
      case Leave(queue, journey) => LetGoLeaves(db, queue, journey, key);
      case MoveToEnd(queue, journey) => EndLeaves(db, queue, journey, key);
      case Fail(journey, failure, at) => EnterLeaves(db, journey, failure, at, key);
      case Unfail(queue, journey) => ClearLeaves(db, queue, journey, key);
      case Join(hold) => PlaceLeaves(db, HeldLine, hold.queue, hold.journey, FreshHeld(hold), key);
      case KeepDead(dead) => PlaceLeaves(db, DeadLine, dead.queue, dead.message, FreshDead(dead), key);
      case TakeDead(queue, _, place) => TakeOutLeaves(db, DeadLine, queue, place, key);
      case Defer(queue, journey, due) => WaitLeaves(db, queue, journey, due, key);
      case _ =>
    }
  }

  lemma PlaceLeaves(db: Db, kind: Kind, queue: Id, about: Id, made: Fresh, key: Key)
    requires !OfLine(key, kind)
    ensures Leaves(db, Place(db, kind, queue, about, made), key)
  {
  }

  lemma TakeOutLeaves(db: Db, kind: Kind, queue: Id, place: nat, key: Key)
    requires !OfLine(key, kind)
    ensures var out := TakeOut(db, kind, queue, place); out.Ok? ==> Read(out.value.0, key) == Read(db, key)
  {
  }

  lemma WaitLeaves(db: Db, queue: Id, journey: Id, due: int, key: Key)
    requires !OfLine(key, HeldLine)
    ensures Leaves(db, Wait(db, queue, journey, due), key)
  {
  }

  lemma EndLeaves(db: Db, queue: Id, journey: Id, key: Key)
    requires !OfLine(key, HeldLine)
    ensures Leaves(db, ToTheEnd(db, queue, journey), key)
  {
  }

  lemma EnterLeaves(db: Db, journey: Id, failure: Failure, at: int, key: Key)
    requires !OfLine(key, HeldLine) && !OfLine(key, FailedLine)
    ensures Leaves(db, Enter(db, journey, failure, at), key)
  {
  }

  lemma ClearLeaves(db: Db, queue: Id, journey: Id, key: Key)
    requires !OfLine(key, HeldLine) && !OfLine(key, FailedLine)
    ensures Leaves(db, Clear(db, queue, journey), key)
  {
  }

  ghost predicate NoneWrites(steps: seq<Step>, key: Key) {
    forall step | step in steps :: !MayWrite(step, key)
  }

  lemma {:induction false} RunLeaves(db: Db, steps: seq<Step>, key: Key)
    requires NoneWrites(steps, key)
    ensures Leaves(db, RunSteps(db, steps), key)
    decreases |steps|
  {
    if steps != [] {
      assert steps[0] in steps;
      StepLeaves(db, steps[0], key);
      var after := DoStep(db, steps[0]);
      if after.Ok? {
        RunLeaves(after.value, steps[1..], key);
      }
    }
  }

  // ---- The kinds of step each part of a plan is made of. ----

  predicate Counts(step: Step) {
    step.Count? || step.PutJourney?
  }

  lemma {:induction false} CountStepsAre(records: seq<JourneyRecord>, places: seq<Hold>)
    ensures forall step | step in CountSteps(records, places) :: Counts(step)
    ensures forall step | step in CountSteps(records, places) && step.PutJourney? :: step.record in records
    decreases |records|
  {
    if records != [] {
      CountStepsAre(records[1..], places);
    }
  }

  /** Nothing a hand-on's parts are made of but its last step ends or keeps a claim. */
  predicate OfHandOn(step: Step) {
    || Counts(step) || step.PutMessage? || step.Leave? || step.Join? || step.MoveToEnd?
    || step.Fail? || step.Unfail? || step.Defer?
  }

  lemma HandOnStepsAre(h: HandOn, held: Claim, now: int)
    ensures var steps := HandOnSteps(h, held, now);
            && |steps| > 0 && steps[|steps| - 1] == LastStep(h, held, now)
            && forall i | 0 <= i < |steps| - 1 :: OfHandOn(steps[i])
  {
    CountStepsAre([h.result], h.queued);
    CountStepsAre(h.next, h.queued);
    var steps := HandOnSteps(h, held, now);
    var body := CountSteps([h.result], h.queued) + MessageSteps(h.messages) + CountSteps(h.next, h.queued)
      + LeaveSteps(h.leaves, h.claim.journey) + JoinSteps(h.queued)
      + EndSteps(h.requeued, h.claim.journey) + FailSteps(h, now)
      + UnfailSteps(h.cleared, h.claim.journey) + WaitSteps(h, now);
    assert steps == body + [LastStep(h, held, now)];
    forall step | step in body ensures OfHandOn(step) {
      if step in CountSteps([h.result], h.queued) {
      } else if step in CountSteps(h.next, h.queued) {
      } else {
      }
    }
    forall i | 0 <= i < |steps| - 1 ensures OfHandOn(steps[i]) {
      assert steps[i] == body[i] && body[i] in body;
    }
  }

  predicate OfTurn(step: Step) {
    step.PutInstance? || step.PutKey? || step.DropKey?
  }

  predicate OfPublication(step: Step) {
    Counts(step) || step.PutMessage? || step.Join? || step.KeepDead?
  }

  lemma PublicationStepsAre(p: Publication)
    ensures forall step | step in PublicationSteps(p) :: OfPublication(step)
  {
    CountStepsAre(p.journeys, p.held);
    forall step | step in PublicationSteps(p) ensures OfPublication(step) {
      if step in CountSteps(p.journeys, p.held) {
      } else {
      }
    }
  }

  predicate OfReplay(step: Step) {
    Counts(step) || step.Join? || step.PutAudit?
  }

  lemma ReplayStepsAre(r: Replay, place: nat, next: nat)
    ensures var steps := ReplaySteps(r, place, next);
            && |steps| > 0 && steps[0] == TakeDead(r.queue, r.message, place)
            && forall step | step in steps[1..] :: OfReplay(step)
  {
    CountStepsAre(r.journeys, r.held);
    var steps := ReplaySteps(r, place, next);
    assert steps[1..] == CountSteps(r.journeys, r.held) + JoinSteps(r.held) + [PutAudit(next, r.audit)];
    forall step | step in steps[1..] ensures OfReplay(step) {
      if step in CountSteps(r.journeys, r.held) {
      } else {
      }
    }
  }
}
