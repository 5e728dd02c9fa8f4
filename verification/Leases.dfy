/** Leases (`claim.rs`): over any run of a clock that never turns back, no two holders of one
    Message hold leases that have both not run out, as their answers told them. */
module Leases {
  import opened Wrappers
  import opened Records
  import opened Queues
  import opened Steps
  import opened Operations
  import opened Shapes
  import opened Frames
  import opened Once
  import opened Repeats
  import opened Turns

  /** What a holder knows of its lease from what it was answered. */
  datatype Lease = Live(until: int) | Ended

  /** By the Journey of the Message and the token it was taken under. */
  type Known = map<(Id, Id), Lease>

  function Note(known: Known, claim: Claim): Known {
    known[(claim.journey, claim.token) := Live(claim.until)]
  }

  function NoteAll(known: Known, claims: seq<Claim>): Known
    decreases |claims|
  {
    if claims == [] then known else NoteAll(Note(known, claims[0]), claims[1..])
  }

  /** Its holder told the hand-on is done: its lease over, or held on for as long as it asked. */
  function NoteHandOn(known: Known, h: HandOn, now: int): Known {
    known[(h.claim.journey, h.claim.token) :=
      if h.keptForNanos.None? then Ended else Live(SaturatingAdd(now, h.keptForNanos.value))]
  }

  /** What the holders know once `asked` is answered. */
  function NoteAnswer(known: Known, asked: Asked, answer: Done): Known {
    match asked.op
    case TakeClaim(_, _) => if answer.OneClaim? && answer.claim.Some? then Note(known, answer.claim.value) else known
    case RenewClaims(_, _) => if answer.Claims? then NoteAll(known, answer.claims) else known
    case Publishing(_) => if answer.Claims? then NoteAll(known, answer.claims) else known
    case ReleaseClaim(claim) => if answer == Yes(true) then known[(claim.journey, claim.token) := Ended] else known
    case _ => known
  }

  /** A hand-on that took effect, in what its holder knows of its lease. */
  function NoteTaken(known: Known, ledger: Ledger, asked: Asked): Known {
    match asked.op
    case HandingOn(h) =>
      if TookEffect(ledger, h, asked.moment) then NoteHandOn(known, h, asked.moment.now) else known
    case Turning(t) =>
      if TurnTook(ledger, t, asked.moment) then NoteHandOn(known, t.handOn, asked.moment.now) else known
    case _ =>
      match Decide(ledger, asked.op, asked.moment)
      case Ok(decision) => NoteAnswer(known, asked, decision.done)
      case Err(_) => known
  }

  /** Every lease on the Message but the one under `kept` had run out, or was ended, by `now`. */
  ghost predicate Over(known: Known, journey: Id, kept: Option<Id>, now: int) {
    forall token: Id | (journey, token) in known && kept != Some(token) ::
      known[(journey, token)].Live? ==> known[(journey, token)].until < now
  }

  /** The record of a Message's claim is what its last holder knows of it, and every other
      holder's lease had run out, or was ended, by `now`. */
  ghost predicate KnownAt(db: Db, known: Known, now: int, journey: Id) {
    && StoredOn(db, journey).Ok?
    && Noted(known, StoredOn(db, journey).value, journey)
    && Over(known, journey, TokenOf(StoredOn(db, journey).value), now)
  }

  function TokenOf(stored: Option<Stored>): Option<Id> {
    if stored.Some? then Some(stored.value.claim.token) else None
  }

  /** The last holder knows of its lease what is kept. */
  predicate Noted(known: Known, stored: Option<Stored>, journey: Id) {
    stored.None?
    || (&& stored.value.claim.journey == journey && (journey, stored.value.claim.token) in known
        && known[(journey, stored.value.claim.token)]
           == if stored.value.standing.Holding? then Live(stored.value.claim.until) else Ended)
  }

  lemma KnownLater(db: Db, known: Known, now: int, later: int, journey: Id)
    requires KnownAt(db, known, now, journey) && now <= later
    ensures KnownAt(db, known, later, journey)
  {
  }

  /** What the holders know agrees with what is kept, everywhere. */
  ghost predicate AllKnown(db: Db, known: Known, now: int) {
    forall journey :: KnownAt(db, known, now, journey)
  }

  // ---- Each way a claim's record changes. ----

  lemma GrantKnown(db: Db, known: Known, asked: Claim, moment: Moment, until: int, journey: Id)
    requires KnownAt(db, known, moment.now, journey) && KnownAt(db, known, moment.now, asked.journey)
    ensures var before := StoredOn(db, asked.journey).value;
            var granted := Granted(before, asked, moment.now, until, moment.epoch);
            KnownAt(AfterGrant(db, before, asked, moment.now, until, moment.epoch),
                    if granted.Some? then Note(known, granted.value) else known, moment.now, journey)
  {
    var before := StoredOn(db, asked.journey).value;
    var after := AfterGrant(db, before, asked, moment.now, until, moment.epoch);
    if journey != asked.journey {
      assert StoredOn(after, journey) == StoredOn(db, journey);
    }
  }

  lemma {:induction false} GrantsKnown(db: Db, known: Known, claims: seq<Claim>, moment: Moment, until: int)
    requires Grants(db, claims, moment, until).Ok? && AllKnown(db, known, moment.now)
    ensures RunSteps(db, GrantSteps(claims, moment, until)).Ok?
    ensures AllKnown(RunSteps(db, GrantSteps(claims, moment, until)).value,
                     NoteAll(known, Grants(db, claims, moment, until).value), moment.now)
    decreases |claims|
  {
    if claims != [] {
      assert KnownAt(db, known, moment.now, claims[0].journey);
      var before := StoredOn(db, claims[0].journey).value;
      var granted := Granted(before, claims[0], moment.now, until, moment.epoch);
      var after := AfterGrant(db, before, claims[0], moment.now, until, moment.epoch);
      var noted := if granted.Some? then Note(known, granted.value) else known;
      forall j ensures KnownAt(after, noted, moment.now, j) {
        assert KnownAt(db, known, moment.now, j);
        GrantKnown(db, known, claims[0], moment, until, j);
      }
      assert GrantSteps(claims, moment, until)[1..] == GrantSteps(claims[1..], moment, until);
      GrantsKnown(after, noted, claims[1..], moment, until);
      var rest := Grants(after, claims[1..], moment, until).value;
      if granted.Some? {
        assert ([granted.value] + rest)[1..] == rest;
      } else {
        assert [] + rest == rest;
      }
    }
  }

  lemma RenewKnown(db: Db, known: Known, claim: Claim, until: int, now: int, journey: Id)
    requires KnownAt(db, known, now, journey) && KnownAt(db, known, now, claim.journey)
    ensures var before := StoredOn(db, claim.journey).value; var after := DoStep(db, RenewClaim(claim, until));
            var held := before.Some? && before.value.HeldBy(claim);
            && after.Ok?
            && KnownAt(after.value,
                       if held then Note(known, before.value.claim.(until := Max(until, before.value.claim.until))) else known,
                       now, journey)
  {
    var after := DoStep(db, RenewClaim(claim, until));
    if journey != claim.journey {
      assert StoredOn(after.value, journey) == StoredOn(db, journey);
    }
  }

  lemma {:induction false} RenewsKnown(db: Db, known: Known, claims: seq<Claim>, until: int, now: int)
    requires Renewed(db, claims, until).Ok? && AllKnown(db, known, now)
    ensures RunSteps(db, RenewSteps(claims, until)).Ok?
    ensures AllKnown(RunSteps(db, RenewSteps(claims, until)).value, NoteAll(known, Renewed(db, claims, until).value), now)
    decreases |claims|
  {
    if claims != [] {
      assert KnownAt(db, known, now, claims[0].journey);
      var before := StoredOn(db, claims[0].journey).value;
      var after := DoStep(db, RenewClaim(claims[0], until)).value;
      var held := before.Some? && before.value.HeldBy(claims[0]);
      var noted := if held then Note(known, before.value.claim.(until := Max(until, before.value.claim.until))) else known;
      forall j ensures KnownAt(after, noted, now, j) {
        assert KnownAt(db, known, now, j);
        RenewKnown(db, known, claims[0], until, now, j);
      }
      assert RenewSteps(claims, until)[1..] == RenewSteps(claims[1..], until);
      RenewsKnown(after, noted, claims[1..], until, now);
      var rest := Renewed(after, claims[1..], until).value;
      if held {
        var renewed := before.value.claim.(until := Max(until, before.value.claim.until));
        assert ([renewed] + rest)[1..] == rest;
      }
    }
  }

  lemma {:induction false} StillKnown(db: Db, known: Known, claims: seq<Claim>, now: int)
    requires StillHeld(db, claims).Ok? && AllKnown(db, known, now)
    ensures AllKnown(db, NoteAll(known, StillHeld(db, claims).value), now)
    decreases |claims|
  {
    if claims != [] {
      var stored := StoredOn(db, claims[0].journey).value;
      var rest := StillHeld(db, claims[1..]).value;
      StillKnown(db, known, claims[1..], now);
      if stored.Some? && stored.value.AskedBy(claims[0]) {
        assert KnownAt(db, known, now, claims[0].journey);
        assert Note(known, stored.value.claim) == known;
        assert ([stored.value.claim] + rest)[1..] == rest;
      } else {
        assert [] + rest == rest;
      }
    }
  }

  // ---- Every operation. ----

  lemma SameClaim(db: Db, after: Db, known: Known, now: int, journey: Id)
    requires KnownAt(db, known, now, journey) && Read(db, ClaimOn(journey)) == Read(after, ClaimOn(journey))
    ensures KnownAt(after, known, now, journey)
  {
  }

  lemma AllNamed(db: Db, known: Known, now: int)
    requires AllKnown(db, known, now)
    ensures ClaimsNamed(db)
  {
    forall j: Id | ClaimOn(j) in db && db[ClaimOn(j)].ClaimV?
      ensures db[ClaimOn(j)].stored.claim.journey == j
    {
      assert KnownAt(db, known, now, j);
    }
  }

  lemma TakeKnown(ledger: Ledger, known: Known, claim: Claim, lease: nat, moment: Moment)
    requires AllKnown(ledger.db, known, moment.now) && Decide(ledger, TakeClaim(claim, lease), moment).Ok?
    ensures AllKnown(After(ledger, TakeClaim(claim, lease), moment).db,
                     NoteTaken(known, ledger, Asked(TakeClaim(claim, lease), moment)), moment.now)
  {
    var until := SaturatingAdd(moment.now, lease);
    RunsOne(ledger.db, GrantClaim(claim, moment.now, until, moment.epoch));
    forall journey ensures KnownAt(After(ledger, TakeClaim(claim, lease), moment).db,
                                   NoteTaken(known, ledger, Asked(TakeClaim(claim, lease), moment)), moment.now, journey)
    {
      assert KnownAt(ledger.db, known, moment.now, journey) && KnownAt(ledger.db, known, moment.now, claim.journey);
      GrantKnown(ledger.db, known, claim, moment, until, journey);
    }
  }

  lemma RenewingKnown(ledger: Ledger, known: Known, claims: seq<Claim>, lease: nat, moment: Moment)
    requires AllKnown(ledger.db, known, moment.now) && Decide(ledger, RenewClaims(claims, lease), moment).Ok?
    ensures AllKnown(After(ledger, RenewClaims(claims, lease), moment).db,
                     NoteTaken(known, ledger, Asked(RenewClaims(claims, lease), moment)), moment.now)
  {
    hide AllKnown;
    RenewsKnown(ledger.db, known, claims, SaturatingAdd(moment.now, lease), moment.now);
  }

  lemma ReleaseKnown(ledger: Ledger, known: Known, claim: Claim, moment: Moment)
    requires AllKnown(ledger.db, known, moment.now) && Decide(ledger, ReleaseClaim(claim), moment).Ok?
    ensures AllKnown(After(ledger, ReleaseClaim(claim), moment).db,
                     NoteTaken(known, ledger, Asked(ReleaseClaim(claim), moment)), moment.now)
  {
    assert KnownAt(ledger.db, known, moment.now, claim.journey);
    var stored := StoredOn(ledger.db, claim.journey).value;
    if stored.Some? && stored.value.HeldBy(claim) {
      RunsOne(ledger.db, SetClaim(Stored(stored.value.claim, Released)));
      forall journey ensures KnownAt(After(ledger, ReleaseClaim(claim), moment).db,
                                     NoteTaken(known, ledger, Asked(ReleaseClaim(claim), moment)), moment.now, journey)
      {
        assert KnownAt(ledger.db, known, moment.now, journey);
        if journey != claim.journey {
          assert StoredOn(After(ledger, ReleaseClaim(claim), moment).db, journey) == StoredOn(ledger.db, journey);
        }
      }
    } else {
      RunsNone(ledger.db);
    }
  }

  lemma HandOnKnown(ledger: Ledger, known: Known, h: HandOn, moment: Moment)
    requires AllKnown(ledger.db, known, moment.now) && Decide(ledger, HandingOn(h), moment).Ok?
    ensures AllKnown(After(ledger, HandingOn(h), moment).db,
                     NoteTaken(known, ledger, Asked(HandingOn(h), moment)), moment.now)
  {
    AllNamed(ledger.db, known, moment.now);
    HandOnAnswers(ledger, h, moment);
    forall journey ensures KnownAt(After(ledger, HandingOn(h), moment).db,
                                   NoteTaken(known, ledger, Asked(HandingOn(h), moment)), moment.now, journey)
    {
      assert KnownAt(ledger.db, known, moment.now, h.claim.journey);
      assert KnownAt(ledger.db, known, moment.now, journey);
      if TookEffect(ledger, h, moment) {
        if journey == h.claim.journey {
          TookLeaves(ledger, h, moment);
        } else {
          LeavesClaim(ledger, Asked(HandingOn(h), moment), journey);
        }
      }
    }
  }

  lemma TurnKnown(ledger: Ledger, known: Known, t: Turn, moment: Moment)
    requires AllKnown(ledger.db, known, moment.now) && Decide(ledger, Turning(t), moment).Ok?
    ensures AllKnown(After(ledger, Turning(t), moment).db,
                     NoteTaken(known, ledger, Asked(Turning(t), moment)), moment.now)
  {
    hide HandOnSteps, TurnSteps, RunSteps, InstancesStand, KeysFree, KnownAt, After;
    TurnAnswers(ledger, t, moment);
    if TurnTook(ledger, t, moment) {
      HandOnKnown(ledger, known, t.handOn, moment);
    }
    forall journey ensures KnownAt(After(ledger, Turning(t), moment).db,
                                   NoteTaken(known, ledger, Asked(Turning(t), moment)), moment.now, journey)
    {
      TurnWroteClaim(ledger, t, moment, journey);
      if TurnTook(ledger, t, moment) {
        SameClaim(After(ledger, HandingOn(t.handOn), moment).db, After(ledger, Turning(t), moment).db,
                  NoteHandOn(known, t.handOn, moment.now), moment.now, journey);
      } else {
        SameClaim(ledger.db, After(ledger, Turning(t), moment).db, known, moment.now, journey);
      }
    }
  }

  /** A turn leaves a claim's record as its hand-on leaves it, where it was done. */
  lemma TurnWroteClaim(ledger: Ledger, t: Turn, moment: Moment, journey: Id)
    requires Decide(ledger, Turning(t), moment).Ok?
    ensures TurnTook(ledger, t, moment) ==>
              Read(After(ledger, Turning(t), moment).db, ClaimOn(journey))
              == Read(After(ledger, HandingOn(t.handOn), moment).db, ClaimOn(journey))
    ensures !TurnTook(ledger, t, moment) ==>
              Read(After(ledger, Turning(t), moment).db, ClaimOn(journey)) == Read(ledger.db, ClaimOn(journey))
  {
    hide HandOnSteps, TurnSteps, InstancesStand, KeysFree, RunSteps;
    TurnAnswers(ledger, t, moment);
    RunsNone(ledger.db);
    TurnStepsAre(t);
    if Current(ledger.db, t).value {
      var plan := HandOnPlan(ledger.db, t.handOn, moment.now).value;
      if plan.done == Yes(true) {
        RunAppended(ledger.db, plan.steps, TurnSteps(t));
        RunLeaves(RunSteps(ledger.db, plan.steps).value, TurnSteps(t), ClaimOn(journey));
      }
    }
  }

  lemma PublishKnown(ledger: Ledger, known: Known, p: Publication, moment: Moment)
    requires AllKnown(ledger.db, known, moment.now) && Decide(ledger, Publishing(p), moment).Ok?
    ensures AllKnown(After(ledger, Publishing(p), moment).db,
                     NoteTaken(known, ledger, Asked(Publishing(p), moment)), moment.now)
  {
    hide RunSteps, PublicationSteps, Grants, StillHeld, KnownAt;
    if PublishedAt(p.message.message) in ledger.db {
      RunsNone(ledger.db);
      StillKnown(ledger.db, known, p.claims, moment.now);
    } else {
      var until := SaturatingAdd(moment.now, p.leaseNanos);
      var published := RunSteps(ledger.db, PublicationSteps(p)).value;
      PublicationStepsAre(p);
      SameClaims(ledger.db, PublicationSteps(p), known, moment.now);
      var last := [PutPublished(p), PutAudit(ledger.next, p.audit)];
      var grants := GrantSteps(p.claims, moment, until);
      RunAppended(ledger.db, PublicationSteps(p), grants + last);
      RunAppended(published, grants, last);
      GrantsKnown(published, known, p.claims, moment, until);
      SameClaims(RunSteps(published, grants).value, last, NoteAll(known, Grants(published, p.claims, moment, until).value),
                 moment.now);
    }
  }

  /** Steps that write no claim leave what is known of them. */
  lemma SameClaims(db: Db, steps: seq<Step>, known: Known, now: int)
    requires AllKnown(db, known, now) && RunSteps(db, steps).Ok?
    requires forall step | step in steps :: OfPublication(step) || step.PutPublished? || step.PutAudit?
    ensures AllKnown(RunSteps(db, steps).value, known, now)
  {
    hide RunSteps, KnownAt;
    forall j ensures KnownAt(RunSteps(db, steps).value, known, now, j) {
      RunLeaves(db, steps, ClaimOn(j));
      SameClaim(db, RunSteps(db, steps).value, known, now, j);
    }
  }

  lemma AfterKnown(ledger: Ledger, known: Known, asked: Asked)
    requires AllKnown(ledger.db, known, asked.moment.now)
    ensures AllKnown(After(ledger, asked.op, asked.moment).db, NoteTaken(known, ledger, asked), asked.moment.now)
  {
    if Decide(ledger, asked.op, asked.moment).Ok? {
      match asked.op {
        case TakeClaim(claim, lease) => TakeKnown(ledger, known, claim, lease, asked.moment);
        case RenewClaims(claims, lease) => RenewingKnown(ledger, known, claims, lease, asked.moment);
        case ReleaseClaim(claim) => ReleaseKnown(ledger, known, claim, asked.moment);
        case HandingOn(h) => HandOnKnown(ledger, known, h, asked.moment);
        case Turning(t) => TurnKnown(ledger, known, t, asked.moment);
        case Publishing(p) => PublishKnown(ledger, known, p, asked.moment);
        case _ => OthersKnown(ledger, known, asked);
      }
    }
  }

  lemma OthersKnown(ledger: Ledger, known: Known, asked: Asked)
    requires AllKnown(ledger.db, known, asked.moment.now)
    requires asked.op.WriteJourney? || asked.op.WriteMessage? || asked.op.Replaying? || asked.op.WriteAudit? || asked.op.ForgetAudit?
    ensures AllKnown(After(ledger, asked.op, asked.moment).db, known, asked.moment.now)
  {
    hide KnownAt, After;
    AllNamed(ledger.db, known, asked.moment.now);
    forall j ensures KnownAt(After(ledger, asked.op, asked.moment).db, known, asked.moment.now, j) {
      LeavesClaim(ledger, asked, j);
      SameClaim(ledger.db, After(ledger, asked.op, asked.moment).db, known, asked.moment.now, j);
    }
  }

  // ---- Every run. ----

  /** The clock never turns back. */
  predicate Monotone(asked: seq<Asked>, since: int)
    decreases |asked|
  {
    asked == [] || (since <= asked[0].moment.now && Monotone(asked[1..], asked[0].moment.now))
  }

  function LastNow(asked: seq<Asked>, since: int): int
    decreases |asked|
  {
    if asked == [] then since else LastNow(asked[1..], asked[0].moment.now)
  }

  function NoteRun(known: Known, ledger: Ledger, asked: seq<Asked>): Known
    decreases |asked|
  {
    if asked == [] then known
    else NoteRun(NoteTaken(known, ledger, asked[0]), After(ledger, asked[0].op, asked[0].moment), asked[1..])
  }

  lemma {:induction false} RunKnown(ledger: Ledger, known: Known, asked: seq<Asked>, since: int)
    requires AllKnown(ledger.db, known, since) && Monotone(asked, since)
    ensures AllKnown(RunAsked(ledger, asked).db, NoteRun(known, ledger, asked), LastNow(asked, since))
    decreases |asked|
  {
    if asked != [] {
      var now := asked[0].moment.now;
      forall j ensures KnownAt(ledger.db, known, now, j) {
        assert KnownAt(ledger.db, known, since, j);
        KnownLater(ledger.db, known, since, now, j);
      }
      AfterKnown(ledger, known, asked[0]);
      RunKnown(After(ledger, asked[0].op, asked[0].moment), NoteTaken(known, ledger, asked[0]), asked[1..], now);
    }
  }

  predicate Unlapsed(known: Known, journey: Id, token: Id, now: int) {
    (journey, token) in known && known[(journey, token)].Live? && now <= known[(journey, token)].until
  }

  /** In every run from an empty database, at its end and ever after, one holder at most has a
      lease on a Message that has not run out, and it is the one whose claim is kept. */
  lemma LeaseExclusion(asked: seq<Asked>, since: int, now: int, journey: Id, one: Id, other: Id)
    requires Monotone(asked, since) && LastNow(asked, since) <= now
    ensures var known := NoteRun(map[], Ledger(map[], 0), asked);
            Unlapsed(known, journey, one, now) && Unlapsed(known, journey, other, now) ==> one == other
    ensures var known := NoteRun(map[], Ledger(map[], 0), asked);
            Unlapsed(known, journey, one, now) ==>
              var stored := StoredOn(RunAsked(Ledger(map[], 0), asked).db, journey);
              && stored.Ok? && stored.value.Some? && stored.value.value.standing.Holding?
              && stored.value.value.claim.token == one && now <= stored.value.value.claim.until
  {
    RunKnown(Ledger(map[], 0), map[], asked, since);
    assert KnownAt(RunAsked(Ledger(map[], 0), asked).db, NoteRun(map[], Ledger(map[], 0), asked), LastNow(asked, since), journey);
  }

  // ---- Fences. ----

  /** A later holder's fence is greater, but where its half that counts holders is full, or
      the epoch its node is the primary in fell behind. */
  lemma FenceGrows(epoch: nat, before: Stored)
    ensures Fence(epoch, Some(before)) > before.claim.fence
       <==> epoch % HOLDERS > before.claim.fence / HOLDERS
            || (epoch % HOLDERS == before.claim.fence / HOLDERS && before.claim.fence % HOLDERS < U32_MAX)
  {
    var high, low := before.claim.fence / HOLDERS, before.claim.fence % HOLDERS;
    assert before.claim.fence == high * HOLDERS + low && low < HOLDERS;
  }

  function FenceOn(db: Db, journey: Id): nat {
    match StoredOn(db, journey)
    case Ok(Some(stored)) => stored.claim.fence
    case _ => 0
  }

  /** No fence kept is of an epoch past `epoch`, which a fence's upper half holds. */
  ghost predicate EpochAt(db: Db, epoch: nat) {
    epoch < HOLDERS && forall journey :: FenceOn(db, journey) / HOLDERS <= epoch
  }

  /** The fence kept went no lower, nor past what `epoch` gives. */
  ghost predicate FenceHolds(db: Db, after: Db, epoch: nat, journey: Id) {
    FenceOn(db, journey) <= FenceOn(after, journey) && FenceOn(after, journey) / HOLDERS <= epoch
  }

  lemma FenceBounds(epoch: nat, before: Option<Stored>)
    requires epoch < HOLDERS && (before.Some? ==> before.value.claim.fence / HOLDERS <= epoch)
    ensures Fence(epoch, before) / HOLDERS == epoch
    ensures before.Some? ==> before.value.claim.fence <= Fence(epoch, before)
  {
    var holders := if before.None? then 0 else before.value.claim.fence % HOLDERS;
    var low := if holders + 1 > U32_MAX then U32_MAX else holders + 1;
    assert Fence(epoch, before) == epoch * HOLDERS + low && low < HOLDERS;
  }

  predicate OfLease(step: Step, epoch: nat) {
    step.RenewClaim? || (step.GrantClaim? && step.epoch == epoch)
  }

  lemma StepFence(db: Db, step: Step, epoch: nat, journey: Id)
    requires OfLease(step, epoch) && EpochAt(db, epoch) && DoStep(db, step).Ok?
    ensures FenceHolds(db, DoStep(db, step).value, epoch, journey)
  {
    var after := DoStep(db, step).value;
    if !MayWrite(step, ClaimOn(journey)) {
      StepLeaves(db, step, ClaimOn(journey));
    } else if step.GrantClaim? {
      assert FenceOn(db, journey) / HOLDERS <= epoch;
      FenceBounds(epoch, StoredOn(db, journey).value);
    } else {
      assert FenceOn(after, journey) == FenceOn(db, journey);
    }
  }

  lemma {:induction false} LeaseStepsFence(db: Db, steps: seq<Step>, epoch: nat, journey: Id)
    requires EpochAt(db, epoch) && RunSteps(db, steps).Ok?
    requires forall step | step in steps :: OfLease(step, epoch)
    ensures FenceHolds(db, RunSteps(db, steps).value, epoch, journey)
    decreases |steps|
  {
    if steps != [] {
      var after := DoStep(db, steps[0]).value;
      forall j ensures FenceHolds(db, after, epoch, j) {
        StepFence(db, steps[0], epoch, j);
      }
      assert EpochAt(after, epoch) by {
        forall j ensures FenceOn(after, j) / HOLDERS <= epoch {
          assert FenceHolds(db, after, epoch, j);
        }
      }
      assert FenceHolds(db, after, epoch, journey);
      LeaseStepsFence(after, steps[1..], epoch, journey);
    }
  }

  lemma SameFence(db: Db, after: Db, epoch: nat, journey: Id)
    requires EpochAt(db, epoch) && Read(db, ClaimOn(journey)) == Read(after, ClaimOn(journey))
    ensures FenceHolds(db, after, epoch, journey)
  {
  }

  lemma HandOnFence(ledger: Ledger, h: HandOn, moment: Moment, journey: Id)
    requires ClaimsNamed(ledger.db) && EpochAt(ledger.db, moment.epoch)
    ensures FenceHolds(ledger.db, After(ledger, HandingOn(h), moment).db, moment.epoch, journey)
  {
    if journey != h.claim.journey {
      LeavesClaim(ledger, Asked(HandingOn(h), moment), journey);
      SameFence(ledger.db, After(ledger, HandingOn(h), moment).db, moment.epoch, journey);
    } else if Decide(ledger, HandingOn(h), moment).Ok? {
      HandOnAnswers(ledger, h, moment);
      if TookEffect(ledger, h, moment) {
        TookLeaves(ledger, h, moment);
      }
    }
  }

  lemma PublishFence(ledger: Ledger, p: Publication, moment: Moment, journey: Id)
    requires EpochAt(ledger.db, moment.epoch) && Decide(ledger, Publishing(p), moment).Ok?
    requires PublishedAt(p.message.message) !in ledger.db
    ensures FenceHolds(ledger.db, After(ledger, Publishing(p), moment).db, moment.epoch, journey)
  {
    hide RunSteps, PublicationSteps, Grants, FenceOn;
    var until := SaturatingAdd(moment.now, p.leaseNanos);
    var published := RunSteps(ledger.db, PublicationSteps(p)).value;
    PublicationStepsAre(p);
    forall j ensures Read(published, ClaimOn(j)) == Read(ledger.db, ClaimOn(j)) {
      RunLeaves(ledger.db, PublicationSteps(p), ClaimOn(j));
    }
    forall j ensures FenceOn(published, j) == FenceOn(ledger.db, j) {
      FenceReads(ledger.db, published, j);
    }
    var last := [PutPublished(p), PutAudit(ledger.next, p.audit)];
    var grants := GrantSteps(p.claims, moment, until);
    RunAppended(ledger.db, PublicationSteps(p), grants + last);
    RunAppended(published, grants, last);
    LeaseStepsFence(published, grants, moment.epoch, journey);
    var granted := RunSteps(published, grants).value;
    RunLeaves(granted, last, ClaimOn(journey));
    FenceReads(granted, RunSteps(granted, last).value, journey);
  }

  lemma FenceReads(db: Db, after: Db, journey: Id)
    requires Read(db, ClaimOn(journey)) == Read(after, ClaimOn(journey))
    ensures FenceOn(db, journey) == FenceOn(after, journey)
  {
  }

  lemma TurnFence(ledger: Ledger, t: Turn, moment: Moment, journey: Id)
    requires ClaimsNamed(ledger.db) && EpochAt(ledger.db, moment.epoch) && Decide(ledger, Turning(t), moment).Ok?
    ensures FenceHolds(ledger.db, After(ledger, Turning(t), moment).db, moment.epoch, journey)
  {
    hide HandOnSteps, TurnSteps, RunSteps, InstancesStand, KeysFree;
    TurnWroteClaim(ledger, t, moment, journey);
    if TurnTook(ledger, t, moment) {
      HandOnFence(ledger, t.handOn, moment, journey);
      FenceReads(After(ledger, HandingOn(t.handOn), moment).db, After(ledger, Turning(t), moment).db, journey);
    } else {
      SameFence(ledger.db, After(ledger, Turning(t), moment).db, moment.epoch, journey);
    }
  }

  lemma AfterFence(ledger: Ledger, asked: Asked, journey: Id)
    requires ClaimsNamed(ledger.db) && EpochAt(ledger.db, asked.moment.epoch)
    ensures FenceHolds(ledger.db, After(ledger, asked.op, asked.moment).db, asked.moment.epoch, journey)
  {
    var after := After(ledger, asked.op, asked.moment).db;
    SameFence(ledger.db, ledger.db, asked.moment.epoch, journey);
    if Decide(ledger, asked.op, asked.moment).Ok? {
      match asked.op {
        case TakeClaim(claim, lease) =>
          var plan := PlanOf(ledger.db, ledger.next, asked.op, asked.moment).value;
          LeaseStepsFence(ledger.db, plan.steps, asked.moment.epoch, journey);
        case RenewClaims(claims, lease) =>
          LeaseStepsFence(ledger.db, RenewSteps(claims, SaturatingAdd(asked.moment.now, lease)), asked.moment.epoch, journey);
        case ReleaseClaim(claim) => ReleaseFence(ledger, claim, asked.moment, journey);
        case HandingOn(h) => HandOnFence(ledger, h, asked.moment, journey);
        case Turning(t) => TurnFence(ledger, t, asked.moment, journey);
        case Publishing(p) =>
          if PublishedAt(p.message.message) in ledger.db {
            RunsNone(ledger.db);
          } else {
            PublishFence(ledger, p, asked.moment, journey);
          }
        case _ =>
          LeavesClaim(ledger, asked, journey);
          SameFence(ledger.db, after, asked.moment.epoch, journey);
      }
    }
  }

  lemma ReleaseFence(ledger: Ledger, claim: Claim, moment: Moment, journey: Id)
    requires ClaimsNamed(ledger.db) && EpochAt(ledger.db, moment.epoch) && Decide(ledger, ReleaseClaim(claim), moment).Ok?
    ensures FenceHolds(ledger.db, After(ledger, ReleaseClaim(claim), moment).db, moment.epoch, journey)
  {
    var stored := StoredOn(ledger.db, claim.journey).value;
    if stored.Some? && stored.value.HeldBy(claim) {
      var step := SetClaim(Stored(stored.value.claim, Released));
      RunsOne(ledger.db, step);
      if journey != claim.journey {
        StepLeaves(ledger.db, step, ClaimOn(journey));
      }
    } else {
      RunsNone(ledger.db);
    }
  }

  /** The epochs its nodes are the primary in never fall behind. */
  predicate EpochsRise(asked: seq<Asked>, since: nat)
    decreases |asked|
  {
    asked == [] || (since <= asked[0].moment.epoch < HOLDERS && EpochsRise(asked[1..], asked[0].moment.epoch))
  }

  lemma {:induction false} RunFence(ledger: Ledger, asked: seq<Asked>, since: nat, journey: Id)
    requires ClaimsNamed(ledger.db) && EpochAt(ledger.db, since) && EpochsRise(asked, since)
    ensures FenceOn(ledger.db, journey) <= FenceOn(RunAsked(ledger, asked).db, journey)
    decreases |asked|
  {
    if asked != [] {
      var epoch := asked[0].moment.epoch;
      assert EpochAt(ledger.db, epoch);
      var after := After(ledger, asked[0].op, asked[0].moment);
      forall j ensures FenceHolds(ledger.db, after.db, epoch, j) {
        AfterFence(ledger, asked[0], j);
      }
      assert EpochAt(after.db, epoch) by {
        forall j ensures FenceOn(after.db, j) / HOLDERS <= epoch {
          assert FenceHolds(ledger.db, after.db, epoch, j);
        }
      }
      AfterNamed(ledger, asked[0]);
      assert FenceHolds(ledger.db, after.db, epoch, journey);
      RunFence(after, asked[1..], epoch, journey);
    }
  }

  lemma {:induction false} RunStaysTyped(ledger: Ledger, asked: seq<Asked>)
    requires Typed(ledger.db)
    ensures Typed(RunAsked(ledger, asked).db)
    decreases |asked|
  {
    if asked != [] {
      DecideTyped(ledger, asked[0].op, asked[0].moment);
      RunStaysTyped(After(ledger, asked[0].op, asked[0].moment), asked[1..]);
    }
  }

  lemma StaleNow(ledger: Ledger, claim: Claim, h: HandOn, moment: Moment)
    requires Typed(ledger.db) && claim.fence < FenceOn(ledger.db, claim.journey) && h.claim == claim
    ensures Decide(ledger, HandingOn(h), moment) == Ok(Decision(Yes(false), ledger))
    ensures Decide(ledger, ReleaseClaim(claim), moment) == Ok(Decision(Yes(false), ledger))
  {
    RunsNone(ledger.db);
  }

  /** Once a Message's kept fence is past a holder's, that holder's hand-on and its release are
      refused and write nothing, after any run whose epochs do not fall behind. */
  lemma StaleRefused(ledger: Ledger, claim: Claim, between: seq<Asked>, since: nat, h: HandOn, moment: Moment)
    requires Typed(ledger.db) && ClaimsNamed(ledger.db) && EpochAt(ledger.db, since) && EpochsRise(between, since)
    requires claim.fence < FenceOn(ledger.db, claim.journey) && h.claim == claim
    ensures var later := RunAsked(ledger, between);
            && Decide(later, HandingOn(h), moment) == Ok(Decision(Yes(false), later))
            && Decide(later, ReleaseClaim(claim), moment) == Ok(Decision(Yes(false), later))
  {
    hide Decide, FenceOn, Typed, RunAsked;
    RunFence(ledger, between, since, claim.journey);
    RunStaysTyped(ledger, between);
    StaleNow(RunAsked(ledger, between), claim, h, moment);
  }
}
