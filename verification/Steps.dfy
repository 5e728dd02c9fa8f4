/** The elementary changes every operation is made of, each a function of the database; an
    operation is a plan of them, taken whole or not at all. */
module Steps {
  import opened Wrappers
  import opened Records
  import opened Queues
  import opened Holds
  import opened Origins

  datatype Step =
    | Count(record: JourneyRecord, places: seq<Hold>)
    | PutJourney(record: JourneyRecord)
    | PutMessage(message: MessageRecord)
    | Leave(queue: Id, journey: Id)
    | Join(hold: Hold)
    | MoveToEnd(queue: Id, journey: Id)
    | Fail(journey: Id, failure: Failure, at: int)
    | Unfail(queue: Id, journey: Id)
    | Defer(queue: Id, journey: Id, due: int)
    | SetClaim(stored: Stored)
    | GrantClaim(asked: Claim, now: int, until: int, epoch: nat)
    | RenewClaim(held: Claim, until: int)
    | KeepDead(dead: DeadMessage)
    | TakeDead(queue: Id, about: Id, place: nat)
    | PutPublished(publication: Publication)
    | PutInstance(instance: InstanceRecord)
    | PutKey(key: InstanceKey)
    | DropKey(key: InstanceKey)
    | PutAudit(number: nat, entry: AuditEntry)
    | DropAudit(number: nat)

  function StoredOn(db: Db, journey: Id): Result<Option<Stored>> {
    match Read(db, ClaimOn(journey))
    case None => Ok(None)
    case Some(ClaimV(stored)) => Ok(Some(stored))
    case Some(_) => Err(Malformed)
  }

  function OwnerOf(db: Db, key: Id): Result<Option<Id>> {
    match Read(db, InstanceKeyAt(key))
    case None => Ok(None)
    case Some(InstanceKeyV(owner)) => Ok(Some(owner))
    case Some(_) => Err(Malformed)
  }

  const HOLDERS: nat := 0x1_0000_0000

  /** The fence a claim taken in `epoch` after `before` carries: the epoch in the high 32 bits
      of a u64, how many holders the Message has had in the low 32, at most what they hold. */
  function Fence(epoch: nat, before: Option<Stored>): nat {
    var holders := if before.None? then 0 else before.value.claim.fence % HOLDERS;
    (epoch % HOLDERS) * HOLDERS + (if holders + 1 > U32_MAX then U32_MAX else holders + 1)
  }

  /** The claim taken where its Message has none held at `now`, or the one held under its own
      token, a request asked again; none where another holds it. */
  function Granted(before: Option<Stored>, asked: Claim, now: int, until: int, epoch: nat): Option<Claim> {
    if before.Some? && before.value.standing.Holding? && before.value.claim.until >= now then
      if before.value.claim.token == asked.token then Some(before.value.claim) else None
    else Some(asked.(fence := Fence(epoch, before), until := until))
  }

  /** What a grant leaves stored: nothing changed where the last claim still holds. */
  function AfterGrant(db: Db, before: Option<Stored>, asked: Claim, now: int, until: int, epoch: nat): Db {
    if before.Some? && before.value.standing.Holding? && before.value.claim.until >= now then db
    else db[ClaimOn(asked.journey) :=
              ClaimV(Stored(asked.(fence := Fence(epoch, before), until := until), Holding))]
  }

  function DoStep(db: Db, step: Step): Result<Db> {
    match step
    case Count(record, places) => Counted(db, record, places)
    case PutJourney(record) => Ok(db[JourneyAt(record.journey) := JourneyV(record)])
    case PutMessage(message) => Ok(db[MessageAt(message.message) := MessageV(message)])
    case Leave(queue, journey) => LetGoOf(db, queue, journey)
    case Join(hold) => Holds.Keep(db, hold)
    case MoveToEnd(queue, journey) => ToTheEnd(db, queue, journey)
    case Fail(journey, failure, at) => Enter(db, journey, failure, at)
    case Unfail(queue, journey) => Clear(db, queue, journey)
    case Defer(queue, journey, due) => Wait(db, queue, journey, due)
    case SetClaim(stored) => Ok(db[ClaimOn(stored.claim.journey) := ClaimV(stored)])
    case GrantClaim(asked, now, until, epoch) =>
      var before :- StoredOn(db, asked.journey);
      Ok(AfterGrant(db, before, asked, now, until, epoch))
    case RenewClaim(held, until) =>
      var before :- StoredOn(db, held.journey);
      if before.Some? && before.value.HeldBy(held) then
        // A later deadline is kept.
        Ok(db[ClaimOn(held.journey) :=
                ClaimV(Stored(before.value.claim.(until := Max(until, before.value.claim.until)), Holding))])
      else Ok(db)
    case KeepDead(dead) => Queues.Place(db, DeadLine, dead.queue, dead.message, FreshDead(dead))
    case TakeDead(queue, about, place) =>
      var (out, _) :- TakeOut(db, DeadLine, queue, place);
      Ok(out[By(DeadLine, queue, about) := TakenOutV])
    case PutPublished(publication) =>
      Ok(db[PublishedAt(publication.message.message) := PublishedV(publication)])
    case PutInstance(instance) => Ok(db[InstanceAt(instance.instance) := InstanceV(instance)])
    case PutKey(key) => Ok(db[InstanceKeyAt(key.key) := InstanceKeyV(key.instance)])
    case DropKey(key) =>
      var owner :- OwnerOf(db, key.key);
      Ok(if owner == Some(key.instance) then db - {InstanceKeyAt(key.key)} else db)
    case PutAudit(number, entry) => Ok(db[AuditAt(number) := AuditV(entry)])
    case DropAudit(number) => Ok((db - {AuditAt(number)})[KeptAt := NumberV(number + 1)])
  }

  /** Every step in order; nothing where one fails. */
  function RunSteps(db: Db, steps: seq<Step>): Result<Db>
    decreases |steps|
  {
    if steps == [] then Ok(db)
    else
      var after :- DoStep(db, steps[0]);
      RunSteps(after, steps[1..])
  }

  lemma RunsNone(db: Db)
    ensures RunSteps(db, []) == Ok(db)
  {
  }

  lemma RunsOne(db: Db, step: Step)
    ensures RunSteps(db, [step]) == DoStep(db, step)
  {
    match DoStep(db, step)
    case Ok(after) => assert [step][1..] == []; assert RunSteps(after, []) == Ok(after);
    case Err(_) =>
  }

  lemma {:induction false} RunAppended(db: Db, first: seq<Step>, rest: seq<Step>)
    ensures RunSteps(db, first + rest)
         == match RunSteps(db, first) case Ok(after) => RunSteps(after, rest) case Err(e) => Err(e)
    decreases |first|
  {
    if first == [] {
      assert first + rest == rest;
    } else {
      assert (first + rest)[0] == first[0] && (first + rest)[1..] == first[1..] + rest;
      match DoStep(db, first[0]) {
        case Ok(after) => RunAppended(after, first[1..], rest);
        case Err(_) =>
      }
    }
  }

  // ---- The queues whose held Messages' places the steps write. ----

  function StepTouches(db: Db, step: Step): set<Id> {
    match step
    case Count(record, places) => RecordTouches(db, record, places)
    case Leave(queue, journey) => HeldTouches(db, queue, journey)
    case Join(hold) => PlaceTouches(db, HeldLine, hold.queue, hold.journey)
    case MoveToEnd(queue, journey) => EndTouches(db, queue, journey)
    case Fail(journey, failure, _) => EnterTouches(db, journey, failure.queue)
    case Unfail(queue, journey) => ClearTouches(db, queue, journey)
    case Defer(queue, journey, _) => HeldTouches(db, queue, journey)
    case _ => {}
  }

  function RunTouches(db: Db, steps: seq<Step>): set<Id>
    decreases |steps|
  {
    if steps == [] then {}
    else
      match DoStep(db, steps[0])
      case Ok(after) => StepTouches(db, steps[0]) + RunTouches(after, steps[1..])
      case Err(_) => {}
  }

  /** A step that writes no held Message's place, whatever the database. */
  predicate PlacesNone(step: Step) {
    && !step.Count? && !step.Leave? && !step.Join? && !step.MoveToEnd?
    && !step.Fail? && !step.Unfail? && !step.Defer?
  }

  lemma {:induction false} RunPlacesNone(db: Db, steps: seq<Step>)
    requires forall i | 0 <= i < |steps| :: PlacesNone(steps[i])
    ensures RunTouches(db, steps) == {}
    decreases |steps|
  {
    if steps != [] && DoStep(db, steps[0]).Ok? {
      RunPlacesNone(DoStep(db, steps[0]).value, steps[1..]);
    }
  }

  lemma AddsNone(db: Db)
    ensures RunSteps(db, []) == Ok(db) && RunTouches(db, []) == {}
  {
  }

  lemma AddsOne(db: Db, step: Step)
    ensures RunSteps(db, [step]) == DoStep(db, step)
    ensures DoStep(db, step).Ok? ==> RunTouches(db, [step]) == StepTouches(db, step)
  {
    RunsOne(db, step);
    assert [step][1..] == [];
    if DoStep(db, step).Ok? {
      AddsNone(DoStep(db, step).value);
    }
  }

  /** The steps after others do what they do after them, and write the places of what they do. */
  lemma {:induction false} RunAdds(db: Db, first: seq<Step>, rest: seq<Step>)
    ensures RunSteps(db, first + rest)
         == match RunSteps(db, first) case Ok(after) => RunSteps(after, rest) case Err(e) => Err(e)
    ensures RunSteps(db, first).Ok? ==>
              RunTouches(db, first + rest) == RunTouches(db, first) + RunTouches(RunSteps(db, first).value, rest)
    decreases |first|
  {
    if first == [] {
      assert first + rest == rest;
    } else {
      assert (first + rest)[0] == first[0] && (first + rest)[1..] == first[1..] + rest;
      match DoStep(db, first[0]) {
        case Ok(after) => RunAdds(after, first[1..], rest);
        case Err(_) =>
      }
    }
  }
}
