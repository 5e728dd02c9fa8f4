/** What the one writer is asked, and what it decides of each (`commit.rs`, `claim.rs`,
    `publication.rs`, `dead.rs`, `instance.rs`): an answer, and the plan of what it writes. */
module Operations {
  import opened Wrappers
  import opened Records
  import opened Queues
  import opened Steps

  datatype Op =
    | WriteJourney(journey: JourneyRecord)
    | WriteMessage(message: MessageRecord)
    | TakeClaim(claim: Claim, leaseNanos: nat)
    | RenewClaims(claims: seq<Claim>, leaseNanos: nat)
    | ReleaseClaim(claim: Claim)
    | HandingOn(handOn: HandOn)
    | Turning(turn: Turn)
    | Publishing(publication: Publication)
    | Replaying(replay: Replay)
    | WriteAudit(entry: AuditEntry)
    | ForgetAudit(number: nat)

  datatype Replayed = ReplayedNow | ReplayedBefore | Absent

  datatype Done =
    | Written
    | OneClaim(claim: Option<Claim>)
    | Claims(claims: seq<Claim>)
    | Yes(yes: bool)
    | Replays(replayed: Replayed)

  /** The Storage node's clock as the batch is decided, and the epoch it is the primary in. */
  datatype Moment = Moment(now: int, epoch: nat)

  /** What an operation is answered, what it writes, and how many audit records it numbers. */
  datatype Plan = Plan(done: Done, steps: seq<Step>, audits: nat)

  function Nothing(done: Done): Plan {
    Plan(done, [], 0)
  }

  // ---- Claims. ----

  function RenewSteps(claims: seq<Claim>, until: int): seq<Step> {
    seq(|claims|, i requires 0 <= i < |claims| => RenewClaim(claims[i], until))
  }

  /** Those still their holder's, renewed, in the order asked. */
  function Renewed(db: Db, claims: seq<Claim>, until: int): Result<seq<Claim>>
    decreases |claims|
  {
    if claims == [] then Ok([])
    else
      var before :- StoredOn(db, claims[0].journey);
      var after :- DoStep(db, RenewClaim(claims[0], until));
      var rest :- Renewed(after, claims[1..], until);
      if before.Some? && before.value.HeldBy(claims[0]) then
        Ok([before.value.claim.(until := Max(until, before.value.claim.until))] + rest)
      else Ok(rest)
  }

  // ---- A step handed on. ----

  function CountSteps(records: seq<JourneyRecord>, places: seq<Hold>): seq<Step>
    decreases |records|
  {
    if records == [] then []
    else [Count(records[0], places), PutJourney(records[0])] + CountSteps(records[1..], places)
  }

  function MessageSteps(messages: seq<MessageRecord>): seq<Step> {
    seq(|messages|, i requires 0 <= i < |messages| => PutMessage(messages[i]))
  }

  function LeaveSteps(queues: seq<Id>, journey: Id): seq<Step> {
    seq(|queues|, i requires 0 <= i < |queues| => Leave(queues[i], journey))
  }

  function JoinSteps(holds: seq<Hold>): seq<Step> {
    seq(|holds|, i requires 0 <= i < |holds| => Join(holds[i]))
  }

  function EndSteps(queues: seq<Id>, journey: Id): seq<Step> {
    seq(|queues|, i requires 0 <= i < |queues| => MoveToEnd(queues[i], journey))
  }

  function UnfailSteps(queues: seq<Id>, journey: Id): seq<Step> {
    seq(|queues|, i requires 0 <= i < |queues| => Unfail(queues[i], journey))
  }

  function FailSteps(h: HandOn, now: int): seq<Step> {
    if h.failed.None? then [] else [Fail(h.claim.journey, h.failed.value, now)]
  }

  function WaitSteps(h: HandOn, now: int): seq<Step> {
    if h.waits.None? then []
    else [Defer(h.waits.value.queue, h.claim.journey, SaturatingAdd(now, h.waits.value.afterNanos))]
  }

  function LastStep(h: HandOn, held: Claim, now: int): Step {
    match h.keptForNanos
    case Some(nanos) => SetClaim(Stored(held.(until := SaturatingAdd(now, nanos)), Holding))
    case None => SetClaim(Stored(held, HandedOn))
  }

  /** What a hand-on under the claim `held` writes, in the order it is written. */
  function HandOnSteps(h: HandOn, held: Claim, now: int): seq<Step> {
    CountSteps([h.result], h.queued) + MessageSteps(h.messages) + CountSteps(h.next, h.queued)
    + LeaveSteps(h.leaves, h.claim.journey) + JoinSteps(h.queued)
    + EndSteps(h.requeued, h.claim.journey) + FailSteps(h, now)
    + UnfailSteps(h.cleared, h.claim.journey) + WaitSteps(h, now) + [LastStep(h, held, now)]
  }

  function HandOnPlan(db: Db, h: HandOn, now: int): Result<Plan> {
    var stored :- StoredOn(db, h.claim.journey);
    if stored.None? then Ok(Nothing(Yes(false)))
    else if stored.value.standing.HandedOn? then
      // Handed on already under this token: an answer that was lost.
      Ok(Nothing(Yes(stored.value.claim.Is(h.claim))))
    else if stored.value.HeldBy(h.claim) then
      Ok(Plan(Yes(true), HandOnSteps(h, stored.value.claim, now), 0))
    else Ok(Nothing(Yes(false)))
  }

  // ---- A Work Process's turn. ----

  function InstanceTurns(db: Db, instance: Id): Result<nat> {
    match Read(db, InstanceAt(instance))
    case None => Ok(0)
    case Some(InstanceV(record)) => Ok(record.turns)
    case Some(_) => Err(Malformed)
  }

  function InstancesStand(db: Db, writes: seq<InstanceWrite>): Result<bool>
    decreases |writes|
  {
    if writes == [] then Ok(true)
    else
      var turns :- InstanceTurns(db, writes[0].record.instance);
      if turns != writes[0].over then Ok(false) else InstancesStand(db, writes[1..])
  }

  function KeysFree(db: Db, keys: seq<InstanceKey>): Result<bool>
    decreases |keys|
  {
    if keys == [] then Ok(true)
    else
      var owner :- OwnerOf(db, keys[0].key);
      if owner.Some? && owner.value != keys[0].instance then Ok(false) else KeysFree(db, keys[1..])
  }

  /** Every Instance stands at the turn its write is over, and every key belongs to no
      Instance or to the one it names. */
  function Current(db: Db, t: Turn): Result<bool> {
    var stand :- InstancesStand(db, t.instances);
    if !stand then Ok(false) else KeysFree(db, t.keys)
  }

  function InstanceSteps(writes: seq<InstanceWrite>): seq<Step> {
    seq(|writes|, i requires 0 <= i < |writes| => PutInstance(writes[i].record))
  }

  function KeySteps(keys: seq<InstanceKey>): seq<Step> {
    seq(|keys|, i requires 0 <= i < |keys| => PutKey(keys[i]))
  }

  function DropSteps(keys: seq<InstanceKey>): seq<Step> {
    seq(|keys|, i requires 0 <= i < |keys| => DropKey(keys[i]))
  }

  function TurnSteps(t: Turn): seq<Step> {
    InstanceSteps(t.instances) + (KeySteps(t.keys) + DropSteps(t.unkeyed))
  }

  function TurnPlan(db: Db, t: Turn, now: int): Result<Plan> {
    var current :- Current(db, t);
    if !current then Ok(Nothing(Yes(false)))
    else
      var plan :- HandOnPlan(db, t.handOn, now);
      if plan.done == Yes(false) then Ok(plan)
      else Ok(plan.(steps := plan.steps + TurnSteps(t)))
  }

  // ---- A Publication. ----

  function GrantSteps(claims: seq<Claim>, moment: Moment, until: int): seq<Step> {
    seq(|claims|, i requires 0 <= i < |claims| => GrantClaim(claims[i], moment.now, until, moment.epoch))
  }

  function Grants(db: Db, claims: seq<Claim>, moment: Moment, until: int): Result<seq<Claim>>
    decreases |claims|
  {
    if claims == [] then Ok([])
    else
      var before :- StoredOn(db, claims[0].journey);
      var granted := Granted(before, claims[0], moment.now, until, moment.epoch);
      var rest :- Grants(AfterGrant(db, before, claims[0], moment.now, until, moment.epoch),
                         claims[1..], moment, until);
      Ok((if granted.Some? then [granted.value] else []) + rest)
  }

  /** The claims of a Publication still held under their tokens. */
  function StillHeld(db: Db, claims: seq<Claim>): Result<seq<Claim>>
    decreases |claims|
  {
    if claims == [] then Ok([])
    else
      var stored :- StoredOn(db, claims[0].journey);
      var rest :- StillHeld(db, claims[1..]);
      Ok((if stored.Some? && stored.value.AskedBy(claims[0]) then [stored.value.claim] else []) + rest)
  }

  /** Its Message, its Journeys, the ones held and its Dead Message Queue entry. */
  function PublicationSteps(p: Publication): seq<Step> {
    [PutMessage(p.message)] + CountSteps(p.journeys, p.held) + JoinSteps(p.held)
    + (if p.dead.None? then [] else [KeepDead(p.dead.value)])
  }

  /** That it was written kept last, and its audit record. */
  function PublishSteps(p: Publication, next: nat, moment: Moment, until: int): seq<Step> {
    PublicationSteps(p) + (GrantSteps(p.claims, moment, until) + [PutPublished(p), PutAudit(next, p.audit)])
  }

  function PublishPlan(db: Db, next: nat, p: Publication, moment: Moment): Result<Plan> {
    match Read(db, PublishedAt(p.message.message))
    case Some(written) =>
      if written != PublishedV(p) then Err(PublishedBefore)
      else
        var held :- StillHeld(db, p.claims);
        Ok(Nothing(Claims(held)))
    case None =>
      var until := SaturatingAdd(moment.now, p.leaseNanos);
      var published :- RunSteps(db, PublicationSteps(p));
      var held :- Grants(published, p.claims, moment, until);
      Ok(Plan(Claims(held), PublishSteps(p, next, moment, until), 1))
  }

  // ---- A Replay. ----

  function ReplaySteps(r: Replay, place: nat, next: nat): seq<Step> {
    [TakeDead(r.queue, r.message, place)] + CountSteps(r.journeys, r.held) + JoinSteps(r.held)
    + [PutAudit(next, r.audit)]
  }

  function ReplayPlan(db: Db, next: nat, r: Replay): Result<Plan> {
    var placed :- PlacedOf(db, DeadLine, r.queue, r.message);
    match placed
    case Never => Ok(Nothing(Replays(Absent)))
    case Out => Ok(Nothing(Replays(ReplayedBefore)))
    case AtPlace(place) => Ok(Plan(Replays(ReplayedNow), ReplaySteps(r, place, next), 1))
  }

  // ---- The audit sequence. ----

  function KeptUpTo(db: Db): Result<nat> {
    match Read(db, KeptAt)
    case None => Ok(0)
    case Some(NumberV(number)) => Ok(number)
    case Some(_) => Err(Malformed)
  }

  // ---- Every operation. ----

  function PlanOf(db: Db, next: nat, op: Op, moment: Moment): Result<Plan> {
    match op
    case WriteJourney(journey) => Ok(Plan(Written, [PutJourney(journey)], 0))
    case WriteMessage(message) => Ok(Plan(Written, [PutMessage(message)], 0))
    case TakeClaim(claim, leaseNanos) =>
      var before :- StoredOn(db, claim.journey);
      var until := SaturatingAdd(moment.now, leaseNanos);
      Ok(Plan(OneClaim(Granted(before, claim, moment.now, until, moment.epoch)),
              [GrantClaim(claim, moment.now, until, moment.epoch)], 0))
    case RenewClaims(claims, leaseNanos) =>
      var until := SaturatingAdd(moment.now, leaseNanos);
      var held :- Renewed(db, claims, until);
      Ok(Plan(Claims(held), RenewSteps(claims, until), 0))
    case ReleaseClaim(claim) =>
      var stored :- StoredOn(db, claim.journey);
      if stored.Some? && stored.value.HeldBy(claim) then
        Ok(Plan(Yes(true), [SetClaim(Stored(stored.value.claim, Released))], 0))
      else Ok(Nothing(Yes(false)))
    case HandingOn(handOn) => HandOnPlan(db, handOn, moment.now)
    case Turning(turn) => TurnPlan(db, turn, moment.now)
    case Publishing(publication) => PublishPlan(db, next, publication, moment)
    case Replaying(replay) => ReplayPlan(db, next, replay)
    case WriteAudit(entry) => Ok(Plan(Written, [PutAudit(next, entry)], 1))
    case ForgetAudit(number) =>
      var kept :- KeptUpTo(db);
      if kept != number then Ok(Nothing(Yes(false)))
      else Ok(Plan(Yes(true), [DropAudit(number)], 0))
  }

  /** The runtime database, and the number the next audit record takes. */
  datatype Ledger = Ledger(db: Db, next: nat)

  datatype Decision = Decision(done: Done, after: Ledger)

  /** One operation decided: its answer and the Ledger after it, or its failure. */
  function Decide(ledger: Ledger, op: Op, moment: Moment): Result<Decision> {
    var plan :- PlanOf(ledger.db, ledger.next, op, moment);
    var db :- RunSteps(ledger.db, plan.steps);
    Ok(Decision(plan.done, Ledger(db, ledger.next + plan.audits)))
  }

  function PlanTouches(db: Db, plan: Result<Plan>): set<Id> {
    if plan.Ok? then RunTouches(db, plan.value.steps) else {}
  }

  /** The queues whose held Messages' places an operation writes: none where it fails. */
  function OpTouches(ledger: Ledger, op: Op, moment: Moment): set<Id> {
    if Decide(ledger, op, moment).Ok? then PlanTouches(ledger.db, PlanOf(ledger.db, ledger.next, op, moment)) else {}
  }

  /** The Ledger after an operation: as it was where the operation fails. */
  function After(ledger: Ledger, op: Op, moment: Moment): Ledger {
    match Decide(ledger, op, moment)
    case Ok(decision) => decision.after
    case Err(_) => ledger
  }
}
