/** Every record of the shape its place keeps: what each operation leaves of it. */
module Shapes {
  import opened Wrappers
  import opened Records
  import opened Queues
  import opened Holds
  import opened Origins
  import opened Steps
  import opened Operations

  predicate Fits(key: Key, value: Value) {
    match key
    case Entry(HeldLine, _, _) => value.HeldV?
    case Entry(FailedLine, _, _) => value.FailedV?
    case Entry(DeadLine, _, _) => value.DeadV?
    case By(_, _, _) => value.PlaceV? || value.TakenOutV?
    case PlacesAt(_, _) => value.PlacesV?
    case JourneyAt(_) => value.JourneyV?
    case MessageAt(_) => value.MessageV?
    case ClaimOn(_) => value.ClaimV?
    case PublishedAt(_) => value.PublishedV?
    case OriginOf(_) => value.OriginV?
    case InstanceAt(_) => value.InstanceV?
    case InstanceKeyAt(_) => value.InstanceKeyV?
    case AuditAt(_) => value.AuditV?
    case KeptAt => value.NumberV?
  }

  ghost predicate Typed(db: Db) {
    forall key | key in db :: Fits(key, db[key])
  }

  /** Came to a database every record of which has its shape: no read on the way failed. */
  ghost predicate Came(result: Result<Db>) {
    result.Ok? && Typed(result.value)
  }

  predicate MadeFor(kind: Kind, made: Fresh) {
    match kind
    case HeldLine => made.FreshHeld?
    case FailedLine => made.FreshFailed?
    case DeadLine => made.FreshDead?
  }

  lemma PlaceTyped(db: Db, kind: Kind, queue: Id, about: Id, made: Fresh)
    requires Typed(db) && MadeFor(kind, made)
    ensures Came(Place(db, kind, queue, about, made))
  {
  }

  lemma TakeOutTyped(db: Db, kind: Kind, queue: Id, place: nat)
    requires Typed(db)
    ensures TakeOut(db, kind, queue, place).Ok?
    ensures Typed(TakeOut(db, kind, queue, place).value.0)
    ensures TakeOut(db, kind, queue, place).value.1 == Read(db, Entry(kind, queue, place))
  {
  }

  lemma LetGoTyped(db: Db, queue: Id, journey: Id)
    requires Typed(db)
    ensures Came(LetGoOf(db, queue, journey))
  {
    var placed := PlacedOf(db, HeldLine, queue, journey);
    if placed.value.AtPlace? {
      TakeOutTyped(db, HeldLine, queue, placed.value.place);
    }
  }

  lemma ToTheEndTyped(db: Db, queue: Id, journey: Id)
    requires Typed(db)
    ensures Came(ToTheEnd(db, queue, journey))
  {
    var placed := PlacedOf(db, HeldLine, queue, journey);
    if placed.value.AtPlace? {
      TakeOutTyped(db, HeldLine, queue, placed.value.place);
      var (out, entry) := TakeOut(db, HeldLine, queue, placed.value.place).value;
      if entry.Some? {
        var hold := entry.value.held.hold;
        PlaceTyped(out - {By(HeldLine, queue, journey)}, HeldLine, hold.queue, hold.journey, FreshHeld(hold));
      }
    }
  }

  lemma EnterTyped(db: Db, journey: Id, failure: Failure, now: int)
    requires Typed(db)
    ensures Came(Enter(db, journey, failure, now))
  {
    var placed := PlacedOf(db, HeldLine, failure.queue, journey);
    if placed.value.AtPlace? {
      var place := placed.value.place;
      assert Came(Mark(db, failure.queue, place, true));
      PlaceTyped(Mark(db, failure.queue, place, true).value, FailedLine, failure.queue, journey,
                 FreshFailed(journey, place, failure.reason, now));
    }
  }

  lemma ClearTyped(db: Db, queue: Id, journey: Id)
    requires Typed(db)
    ensures Came(Clear(db, queue, journey))
  {
    var entered := PlacedOf(db, FailedLine, queue, journey);
    if entered.value.AtPlace? {
      TakeOutTyped(db, FailedLine, queue, entered.value.place);
    }
    assert Came(Unindexed(db, queue, journey));
  }

  lemma {:induction false} ReleaseAllTyped(db: Db, queues: seq<Id>, holder: Id)
    requires Typed(db)
    ensures Came(ReleaseAll(db, queues, holder))
    decreases |queues|
  {
    if queues != [] {
      LetGoTyped(db, queues[0], holder);
      ReleaseAllTyped(LetGoOf(db, queues[0], holder).value, queues[1..], holder);
    }
  }

  lemma CountRoleTyped(db: Db, was: bool, holder: Option<Id>, opens: bool, places: seq<Hold>)
    requires Typed(db)
    ensures Came(CountRole(db, was, holder, opens, places))
  {
    if holder.Some? {
      var origin := OriginAt(db, holder.value);
      ReleaseAllTyped(db, WithQueues(origin.value.queues, places, holder.value), holder.value);
    }
  }

  lemma CountedTyped(db: Db, record: JourneyRecord, places: seq<Hold>)
    requires Typed(db)
    ensures Came(Counted(db, record, places))
  {
    var before := JourneyOf(db, record.journey);
    assert before.Ok?;
    CountRoleTyped(db, WasOrigin(before.value, record), record.origin, record.open, places);
    var first := CountRole(db, WasOrigin(before.value, record), record.origin, record.open, places).value;
    CountRoleTyped(first, WasGroup(before.value, record), record.groupDelivery, record.groupOpen, places);
  }

  lemma StepTyped(db: Db, step: Step)
    requires Typed(db)
    ensures Came(DoStep(db, step))
  {
    hide Counted, LetGoOf, ToTheEnd, Enter, Clear, Place, TakeOut;
    match step {
      case Count(record, places) => CountedTyped(db, record, places);
      case Leave(queue, journey) => LetGoTyped(db, queue, journey);
      case Join(hold) => PlaceTyped(db, HeldLine, hold.queue, hold.journey, FreshHeld(hold));
      case MoveToEnd(queue, journey) => ToTheEndTyped(db, queue, journey);
      case Fail(journey, failure, at) => EnterTyped(db, journey, failure, at);
      case Unfail(queue, journey) => ClearTyped(db, queue, journey);
      case KeepDead(dead) => PlaceTyped(db, DeadLine, dead.queue, dead.message, FreshDead(dead));
      case TakeDead(queue, about, place) => TakeOutTyped(db, DeadLine, queue, place);
      case _ =>
    }
  }

  lemma {:induction false} RunTyped(db: Db, steps: seq<Step>)
    requires Typed(db)
    ensures Came(RunSteps(db, steps))
    decreases |steps|
  {
    if steps != [] {
      StepTyped(db, steps[0]);
      RunTyped(DoStep(db, steps[0]).value, steps[1..]);
    }
  }

  // ---- Nothing is refused but a Message published before as another Publication. ----

  predicate PublishedAsAnother(db: Db, op: Op) {
    && op.Publishing?
    && PublishedAt(op.publication.message.message) in db
    && db[PublishedAt(op.publication.message.message)] != PublishedV(op.publication)
  }

  lemma {:induction false} RenewedTyped(db: Db, claims: seq<Claim>, until: int)
    requires Typed(db)
    ensures Renewed(db, claims, until).Ok?
    decreases |claims|
  {
    if claims != [] {
      StepTyped(db, RenewClaim(claims[0], until));
      RenewedTyped(DoStep(db, RenewClaim(claims[0], until)).value, claims[1..], until);
    }
  }

  lemma {:induction false} GrantsTyped(db: Db, claims: seq<Claim>, moment: Moment, until: int)
    requires Typed(db)
    ensures Grants(db, claims, moment, until).Ok?
    decreases |claims|
  {
    if claims != [] {
      var before := StoredOn(db, claims[0].journey);
      assert before.Ok?;
      GrantsTyped(AfterGrant(db, before.value, claims[0], moment.now, until, moment.epoch), claims[1..], moment, until);
    }
  }

  lemma {:induction false} StillHeldTyped(db: Db, claims: seq<Claim>)
    requires Typed(db)
    ensures StillHeld(db, claims).Ok?
    decreases |claims|
  {
    if claims != [] {
      StillHeldTyped(db, claims[1..]);
    }
  }

  lemma {:induction false} CurrentTyped(db: Db, instances: seq<InstanceWrite>, keys: seq<InstanceKey>)
    requires Typed(db)
    ensures InstancesStand(db, instances).Ok? && KeysFree(db, keys).Ok?
    decreases |instances| + |keys|
  {
    if instances != [] {
      CurrentTyped(db, instances[1..], keys);
    } else if keys != [] {
      CurrentTyped(db, instances, keys[1..]);
    }
  }

  lemma PlanTyped(db: Db, next: nat, op: Op, moment: Moment)
    requires Typed(db)
    ensures PublishedAsAnother(db, op) ==> PlanOf(db, next, op, moment) == Err(PublishedBefore)
    ensures !PublishedAsAnother(db, op) ==> PlanOf(db, next, op, moment).Ok?
  {
    match op {
      case RenewClaims(claims, lease) => RenewedTyped(db, claims, SaturatingAdd(moment.now, lease));
      case Turning(turn) => CurrentTyped(db, turn.instances, turn.keys);
      case Publishing(p) =>
        StillHeldTyped(db, p.claims);
        RunTyped(db, PublicationSteps(p));
        GrantsTyped(RunSteps(db, PublicationSteps(p)).value, p.claims, moment, SaturatingAdd(moment.now, p.leaseNanos));
      case _ =>
    }
  }

  /** Over records of their shapes an operation fails in one case alone, and leaves records of
      their shapes behind in every case. */
  lemma DecideTyped(ledger: Ledger, op: Op, moment: Moment)
    requires Typed(ledger.db)
    ensures Decide(ledger, op, moment).Err? <==> PublishedAsAnother(ledger.db, op)
    ensures Typed(After(ledger, op, moment).db)
  {
    PlanTyped(ledger.db, ledger.next, op, moment);
    var plan := PlanOf(ledger.db, ledger.next, op, moment);
    if plan.Ok? {
      RunTyped(ledger.db, plan.value.steps);
    }
  }
}
