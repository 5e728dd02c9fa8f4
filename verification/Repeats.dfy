/** What a hand-on answers and writes when it is asked again (`claim.rs`), after any run that
    leaves the record of its claim as it was. */
module Repeats {
  import opened Wrappers
  import opened Records
  import opened Queues
  import opened Steps
  import opened Operations
  import opened Shapes
  import opened Frames
  import opened Once

  // ---- The claim a Message's record keeps is a claim on that Message. ----

  ghost predicate ClaimsNamed(db: Db) {
    forall j: Id | ClaimOn(j) in db && db[ClaimOn(j)].ClaimV? :: db[ClaimOn(j)].stored.claim.journey == j
  }

  lemma StepNamed(db: Db, step: Step)
    requires ClaimsNamed(db) && DoStep(db, step).Ok?
    ensures ClaimsNamed(DoStep(db, step).value)
  {
    var after := DoStep(db, step).value;
    forall j: Id | ClaimOn(j) in after && after[ClaimOn(j)].ClaimV?
      ensures after[ClaimOn(j)].stored.claim.journey == j
    {
      if !MayWrite(step, ClaimOn(j)) {
        StepLeaves(db, step, ClaimOn(j));
      }
    }
  }

  lemma {:induction false} RunNamed(db: Db, steps: seq<Step>)
    requires ClaimsNamed(db) && RunSteps(db, steps).Ok?
    ensures ClaimsNamed(RunSteps(db, steps).value)
    decreases |steps|
  {
    if steps != [] {
      StepNamed(db, steps[0]);
      RunNamed(DoStep(db, steps[0]).value, steps[1..]);
    }
  }

  /** The operation is about the claim on `journey`'s Message. */
  predicate Touches(op: Op, journey: Id) {
    match op
    case TakeClaim(claim, _) => claim.journey == journey
    case RenewClaims(claims, _) => exists claim | claim in claims :: claim.journey == journey
    case ReleaseClaim(claim) => claim.journey == journey
    case HandingOn(h) => h.claim.journey == journey
    case Turning(t) => t.handOn.claim.journey == journey
    case Publishing(p) => exists claim | claim in p.claims :: claim.journey == journey
    case _ => false
  }

  lemma HandOnWrites(db: Db, h: HandOn, now: int, journey: Id)
    requires ClaimsNamed(db) && h.claim.journey != journey && HandOnPlan(db, h, now).Ok?
    ensures NoneWrites(HandOnPlan(db, h, now).value.steps, ClaimOn(journey))
  {
    hide HandOnSteps;
    var stored := StoredOn(db, h.claim.journey);
    if stored.value.Some? {
      assert stored.value.value.claim.journey == h.claim.journey;
      HandOnStepsAre(h, stored.value.value.claim, now);
      var steps := HandOnSteps(h, stored.value.value.claim, now);
      forall step | step in steps ensures !MayWrite(step, ClaimOn(journey)) {
        var i :| 0 <= i < |steps| && steps[i] == step;
      }
    }
  }

  lemma RenewWrites(claims: seq<Claim>, until: int, journey: Id)
    requires forall c | c in claims :: c.journey != journey
    ensures NoneWrites(RenewSteps(claims, until), ClaimOn(journey))
  {
    forall step | step in RenewSteps(claims, until) ensures !MayWrite(step, ClaimOn(journey)) {
      var i :| 0 <= i < |claims| && RenewSteps(claims, until)[i] == step;
      assert claims[i] in claims;
    }
  }

  lemma PublishWrites(p: Publication, next: nat, moment: Moment, until: int, journey: Id)
    requires !Touches(Publishing(p), journey)
    ensures NoneWrites(PublishSteps(p, next, moment, until), ClaimOn(journey))
  {
    PublicationStepsAre(p);
    forall step | step in PublishSteps(p, next, moment, until) ensures !MayWrite(step, ClaimOn(journey)) {
      if step in PublicationSteps(p) {
      } else if step in GrantSteps(p.claims, moment, until) {
        var i :| 0 <= i < |p.claims| && GrantSteps(p.claims, moment, until)[i] == step;
        assert p.claims[i] in p.claims;
      } else {
      }
    }
  }

  lemma ReplayWrites(r: Replay, place: nat, next: nat, journey: Id)
    ensures NoneWrites(ReplaySteps(r, place, next), ClaimOn(journey))
  {
    ReplayStepsAre(r, place, next);
    var steps := ReplaySteps(r, place, next);
    forall step | step in steps ensures !MayWrite(step, ClaimOn(journey)) {
      if step != steps[0] { assert step in steps[1..]; }
    }
  }

  lemma PlanLeavesClaim(ledger: Ledger, asked: Asked, journey: Id)
    requires ClaimsNamed(ledger.db) && !Touches(asked.op, journey)
    ensures var plan := PlanOf(ledger.db, ledger.next, asked.op, asked.moment);
            plan.Ok? ==> NoneWrites(plan.value.steps, ClaimOn(journey))
  {
    hide Renewed, HandOnSteps, ReplaySteps, PublishSteps, PublicationSteps, Grants, StillHeld, RunSteps;
    var plan := PlanOf(ledger.db, ledger.next, asked.op, asked.moment);
    if plan.Ok? {
      match asked.op {
        case RenewClaims(claims, lease) =>
          RenewWrites(claims, SaturatingAdd(asked.moment.now, lease), journey);
        case HandingOn(h) => HandOnWrites(ledger.db, h, asked.moment.now, journey);
        case Turning(t) =>
          if Current(ledger.db, t).value {
            HandOnWrites(ledger.db, t.handOn, asked.moment.now, journey);
          }
          TurnStepsAre(t);
        case Publishing(p) =>
          PublishWrites(p, ledger.next, asked.moment, SaturatingAdd(asked.moment.now, p.leaseNanos), journey);
        case Replaying(r) =>
          if plan.value.steps != [] {
            ReplayWrites(r, PlacedOf(ledger.db, DeadLine, r.queue, r.message).value.place, ledger.next, journey);
          }
        case _ =>
      }
    }
  }

  lemma LeavesClaim(ledger: Ledger, asked: Asked, journey: Id)
    requires ClaimsNamed(ledger.db) && !Touches(asked.op, journey)
    ensures Read(After(ledger, asked.op, asked.moment).db, ClaimOn(journey)) == Read(ledger.db, ClaimOn(journey))
  {
    hide PlanOf, NoneWrites;
    PlanLeavesClaim(ledger, asked, journey);
    var plan := PlanOf(ledger.db, ledger.next, asked.op, asked.moment);
    if plan.Ok? {
      RunLeaves(ledger.db, plan.value.steps, ClaimOn(journey));
    }
  }

  lemma AfterNamed(ledger: Ledger, asked: Asked)
    requires ClaimsNamed(ledger.db)
    ensures ClaimsNamed(After(ledger, asked.op, asked.moment).db)
  {
    var plan := PlanOf(ledger.db, ledger.next, asked.op, asked.moment);
    if plan.Ok? && RunSteps(ledger.db, plan.value.steps).Ok? {
      RunNamed(ledger.db, plan.value.steps);
    }
  }

  /** Nothing asked about other Messages changes the record of this one's claim. */
  lemma {:induction false} ClaimKept(ledger: Ledger, asked: seq<Asked>, journey: Id)
    requires ClaimsNamed(ledger.db) && forall a | a in asked :: !Touches(a.op, journey)
    ensures Read(RunAsked(ledger, asked).db, ClaimOn(journey)) == Read(ledger.db, ClaimOn(journey))
    decreases |asked|
  {
    if asked != [] {
      assert asked[0] in asked;
      LeavesClaim(ledger, asked[0], journey);
      AfterNamed(ledger, asked[0]);
      ClaimKept(After(ledger, asked[0].op, asked[0].moment), asked[1..], journey);
    }
  }

  // ---- A hand-on's answer, and what it leaves. ----

  /** The hand-on's claim is the last taken and was not given back, its lease run out or not. */
  predicate Ours(db: Db, h: HandOn) {
    match StoredOn(db, h.claim.journey)
    case Ok(Some(stored)) => stored.claim.Is(h.claim) && !stored.standing.Released?
    case _ => false
  }

  /** It took effect: its claim held, and all it writes written. */
  predicate TookEffect(ledger: Ledger, h: HandOn, moment: Moment) {
    && StoredOn(ledger.db, h.claim.journey).Ok? && StoredOn(ledger.db, h.claim.journey).value.Some?
    && StoredOn(ledger.db, h.claim.journey).value.value.HeldBy(h.claim)
    && Decide(ledger, HandingOn(h), moment).Ok?
  }

  lemma HandOnAnswers(ledger: Ledger, h: HandOn, moment: Moment)
    requires Decide(ledger, HandingOn(h), moment).Ok?
    ensures Decide(ledger, HandingOn(h), moment).value.done == Yes(Ours(ledger.db, h))
    ensures !TookEffect(ledger, h, moment) ==> After(ledger, HandingOn(h), moment) == ledger
  {
    hide HandOnSteps;
    RunsNone(ledger.db);
  }

  /** How a hand-on that took effect leaves its claim's record: ended, or held on. */
  lemma TookLeaves(ledger: Ledger, h: HandOn, moment: Moment)
    requires ClaimsNamed(ledger.db) && TookEffect(ledger, h, moment)
    ensures var held := StoredOn(ledger.db, h.claim.journey).value.value.claim;
            StoredOn(After(ledger, HandingOn(h), moment).db, h.claim.journey)
            == Ok(Some(if h.keptForNanos.None? then Stored(held, HandedOn)
                       else Stored(held.(until := SaturatingAdd(moment.now, h.keptForNanos.value)), Holding)))
  {
    var held := StoredOn(ledger.db, h.claim.journey).value.value.claim;
    var steps := HandOnSteps(h, held, moment.now);
    HandOnStepsAre(h, held, moment.now);
    var first := steps[..|steps| - 1];
    assert steps == first + [LastStep(h, held, moment.now)];
    RunAppended(ledger.db, first, [LastStep(h, held, moment.now)]);
    assert [LastStep(h, held, moment.now)][1..] == [];
  }

  /** Asked again after any run that left its ended claim the recorded one, a hand-on answers
      true and changes nothing. */
  lemma HandedOnAgain(ledger: Ledger, h: HandOn, moment: Moment, between: seq<Asked>, h2: HandOn, again: Moment)
    requires ClaimsNamed(ledger.db) && TookEffect(ledger, h, moment) && h.keptForNanos.None?
    requires h2.claim.journey == h.claim.journey && h2.claim.Is(h.claim)
    requires var after := After(ledger, HandingOn(h), moment);
             || Read(RunAsked(after, between).db, ClaimOn(h.claim.journey)) == Read(after.db, ClaimOn(h.claim.journey))
             || forall a | a in between :: !Touches(a.op, h.claim.journey)
    ensures var later := RunAsked(After(ledger, HandingOn(h), moment), between);
            Decide(later, HandingOn(h2), again) == Ok(Decision(Yes(true), later))
  {
    TookLeaves(ledger, h, moment);
    var after := After(ledger, HandingOn(h), moment);
    AfterNamed(ledger, Asked(HandingOn(h), moment));
    if forall a | a in between :: !Touches(a.op, h.claim.journey) {
      ClaimKept(after, between, h.claim.journey);
    }
    RunsNone(RunAsked(after, between).db);
  }

  /** A claim given back answers false and changes nothing, after any such run. */
  lemma ReleasedStays(ledger: Ledger, claim: Claim, moment: Moment, between: seq<Asked>, h: HandOn, again: Moment)
    requires ClaimsNamed(ledger.db)
    requires Decide(ledger, ReleaseClaim(claim), moment).Ok?
             && Decide(ledger, ReleaseClaim(claim), moment).value.done == Yes(true)
    requires h.claim.journey == claim.journey && forall a | a in between :: !Touches(a.op, claim.journey)
    ensures var later := RunAsked(After(ledger, ReleaseClaim(claim), moment), between);
            Decide(later, HandingOn(h), again) == Ok(Decision(Yes(false), later))
  {
    hide RunAsked, Touches, HandOnSteps, TurnPlan, PublishPlan, ReplayPlan, Renewed, Granted;
    var stored := StoredOn(ledger.db, claim.journey).value;
    var ended := SetClaim(Stored(stored.value.claim, Released));
    assert [ended][1..] == [];
    assert RunSteps(ledger.db, [ended]) == DoStep(ledger.db, ended) by {
      RunsNone(DoStep(ledger.db, ended).value);
    }
    var after := After(ledger, ReleaseClaim(claim), moment);
    AfterNamed(ledger, Asked(ReleaseClaim(claim), moment));
    ClaimKept(after, between, claim.journey);
    RunsNone(RunAsked(after, between).db);
  }

  // ---- Where its claim is kept on, a hand-on asked again is done again. ----

  /** Repeating it changes nothing, whenever it is asked, where and only where it ends its
      claim: one that keeps its claim for a retry is handed on again. */
  lemma RepeatChangesNothing(ledger: Ledger, h: HandOn, moment: Moment)
    requires Typed(ledger.db) && ClaimsNamed(ledger.db) && TookEffect(ledger, h, moment)
    ensures var after := After(ledger, HandingOn(h), moment);
            (forall again :: After(after, HandingOn(h), again) == after) <==> h.keptForNanos.None?
  {
    var after := After(ledger, HandingOn(h), moment);
    if h.keptForNanos.None? {
      forall again ensures After(after, HandingOn(h), again) == after {
        HandedOnAgain(ledger, h, moment, [], h, again);
      }
    } else {
      var nanos := h.keptForNanos.value;
      var until := SaturatingAdd(moment.now, nanos);
      var other: int := if until == 0 then 1 else 0;
      var again := Moment(other - nanos, 0);
      TookLeaves(ledger, h, moment);
      DecideTyped(ledger, HandingOn(h), moment);
      DecideTyped(after, HandingOn(h), again);
      AfterNamed(ledger, Asked(HandingOn(h), moment));
      assert TookEffect(after, h, again);
      TookLeaves(after, h, again);
      assert StoredOn(After(after, HandingOn(h), again).db, h.claim.journey) != StoredOn(after.db, h.claim.journey);
    }
  }
}
