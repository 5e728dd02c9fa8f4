/** A Publication is written once by its Message, and a Dead Message Queue entry replayed once,
    however often each is asked again, and whatever is decided or lost in between. */
module Once {
  import opened Wrappers
  import opened Records
  import opened Queues
  import opened Steps
  import opened Operations
  import opened Writers
  import opened Frames
  import opened Pipeline

  datatype Asked = Asked(op: Op, moment: Moment)

  /** Operations decided one after another, each at its own moment. */
  function RunAsked(ledger: Ledger, asked: seq<Asked>): Ledger
    decreases |asked|
  {
    if asked == [] then ledger
    else RunAsked(After(ledger, asked[0].op, asked[0].moment), asked[1..])
  }

  // ---- Publications. ----

  /** The operation writes `message`'s Publication. */
  predicate Publishes(ledger: Ledger, asked: Asked, message: Id) {
    && asked.op.Publishing? && asked.op.publication.message.message == message
    && PublishedAt(message) !in ledger.db
    && Decide(ledger, asked.op, asked.moment).Ok?
  }

  lemma TurnStepsAre(t: Turn)
    ensures forall step | step in TurnSteps(t) :: OfTurn(step)
  {
  }

  /** A record no operation on Journeys, Messages, claims, queues or Instances writes. */
  predicate Apart(key: Key) {
    key.PublishedAt? || OfLine(key, DeadLine) || key.AuditAt? || key.KeptAt?
  }

  lemma HandOnWritesApart(db: Db, h: HandOn, now: int, key: Key)
    requires Apart(key)
    ensures HandOnPlan(db, h, now).Ok? ==> NoneWrites(HandOnPlan(db, h, now).value.steps, key)
  {
    hide HandOnSteps;
    var stored := StoredOn(db, h.claim.journey);
    if stored.Ok? && stored.value.Some? {
      HandOnStepsAre(h, stored.value.value.claim, now);
      var steps := HandOnSteps(h, stored.value.value.claim, now);
      forall step | step in steps ensures !MayWrite(step, key) {
        var i :| 0 <= i < |steps| && steps[i] == step;
      }
    }
  }

  lemma TurnWritesApart(db: Db, t: Turn, now: int, key: Key)
    requires Apart(key)
    ensures TurnPlan(db, t, now).Ok? ==> NoneWrites(TurnPlan(db, t, now).value.steps, key)
  {
    hide Current, HandOnPlan, TurnSteps;
    HandOnWritesApart(db, t.handOn, now, key);
    TurnStepsAre(t);
  }

  lemma OthersPlan(ledger: Ledger, asked: Asked, key: Key)
    requires Apart(key) && !asked.op.Publishing? && !asked.op.Replaying?
    requires asked.op.WriteAudit? || asked.op.ForgetAudit? ==> !key.AuditAt? && !key.KeptAt?
    ensures var plan := PlanOf(ledger.db, ledger.next, asked.op, asked.moment);
            plan.Ok? ==> NoneWrites(plan.value.steps, key)
  {
    hide Renewed, StoredOn, HandOnPlan, TurnPlan, PublishPlan, ReplayPlan, RunSteps;
    match asked.op {
      case HandingOn(h) => HandOnWritesApart(ledger.db, h, asked.moment.now, key);
      case Turning(t) => TurnWritesApart(ledger.db, t, asked.moment.now, key);
      case _ =>
    }
  }

  /** No other operation writes that a Publication was written, or moves a dead entry. */
  lemma OthersLeave(ledger: Ledger, asked: Asked, key: Key)
    requires Apart(key) && !asked.op.Publishing? && !asked.op.Replaying?
    requires asked.op.WriteAudit? || asked.op.ForgetAudit? ==> !key.AuditAt? && !key.KeptAt?
    ensures Read(After(ledger, asked.op, asked.moment).db, key) == Read(ledger.db, key)
  {
    hide PlanOf, NoneWrites;
    OthersPlan(ledger, asked, key);
    var plan := PlanOf(ledger.db, ledger.next, asked.op, asked.moment);
    if plan.Ok? {
      RunLeaves(ledger.db, plan.value.steps, key);
    }
  }

  lemma PublishStepsWrite(db: Db, p: Publication, next: nat, moment: Moment, until: int, message: Id)
    requires RunSteps(db, PublishSteps(p, next, moment, until)).Ok?
    ensures Read(RunSteps(db, PublishSteps(p, next, moment, until)).value, PublishedAt(message))
         == if p.message.message == message then Some(PublishedV(p)) else Read(db, PublishedAt(message))
  {
    hide RunSteps, PublicationSteps, GrantSteps;
    var first := PublicationSteps(p) + GrantSteps(p.claims, moment, until);
    var last := [PutPublished(p), PutAudit(next, p.audit)];
    assert PublishSteps(p, next, moment, until) == first + last;
    RunAppended(db, first, last);
    FirstWritesNone(p, moment, until, message);
    RunLeaves(db, first, PublishedAt(message));
    PutsLast(RunSteps(db, first).value, p, next);
  }

  lemma PutsLast(db: Db, p: Publication, next: nat)
    ensures RunSteps(db, [PutPublished(p), PutAudit(next, p.audit)])
         == Ok(db[PublishedAt(p.message.message) := PublishedV(p)][AuditAt(next) := AuditV(p.audit)])
  {
    var last := [PutPublished(p), PutAudit(next, p.audit)];
    assert last[1..] == [PutAudit(next, p.audit)];
    RunsOne(db[PublishedAt(p.message.message) := PublishedV(p)], PutAudit(next, p.audit));
  }

  lemma FirstWritesNone(p: Publication, moment: Moment, until: int, message: Id)
    ensures NoneWrites(PublicationSteps(p) + GrantSteps(p.claims, moment, until), PublishedAt(message))
  {
    hide PublicationSteps;
    var first := PublicationSteps(p) + GrantSteps(p.claims, moment, until);
    PublicationStepsAre(p);
    forall step | step in first ensures !MayWrite(step, PublishedAt(message)) {
      if step in PublicationSteps(p) {
      } else {
      }
    }
  }

  lemma PublishingLeaves(ledger: Ledger, p: Publication, moment: Moment, message: Id)
    ensures Read(After(ledger, Publishing(p), moment).db, PublishedAt(message))
         == if Publishes(ledger, Asked(Publishing(p), moment), message) then Some(PublishedV(p))
            else Read(ledger.db, PublishedAt(message))
  {
    hide RunSteps, PublishSteps, Grants, StillHeld;
    if PublishedAt(p.message.message) !in ledger.db && Decide(ledger, Publishing(p), moment).Ok? {
      PublishStepsWrite(ledger.db, p, ledger.next, moment, SaturatingAdd(moment.now, p.leaseNanos), message);
    } else if Decide(ledger, Publishing(p), moment).Ok? {
      RunsNone(ledger.db);
    }
  }

  lemma ReplayingLeaves(ledger: Ledger, r: Replay, moment: Moment, message: Id)
    ensures Read(After(ledger, Replaying(r), moment).db, PublishedAt(message)) == Read(ledger.db, PublishedAt(message))
  {
    hide RunSteps, ReplaySteps;
    var plan := ReplayPlan(ledger.db, ledger.next, r);
    if plan.Ok? {
      RunsNone(ledger.db);
    }
    if plan.Ok? && plan.value.steps != [] {
      var placed := PlacedOf(ledger.db, DeadLine, r.queue, r.message).value;
      ReplayStepsAre(r, placed.place, ledger.next);
      var steps := plan.value.steps;
      forall step | step in steps ensures !MayWrite(step, PublishedAt(message)) {
        if step != steps[0] { assert step in steps[1..]; }
      }
      RunLeaves(ledger.db, steps, PublishedAt(message));
    }
  }

  lemma PublishedAfter(ledger: Ledger, asked: Asked, message: Id)
    ensures Read(After(ledger, asked.op, asked.moment).db, PublishedAt(message))
         == if Publishes(ledger, asked, message) then Some(PublishedV(asked.op.publication))
            else Read(ledger.db, PublishedAt(message))
  {
    match asked.op {
      case Publishing(p) => PublishingLeaves(ledger, p, asked.moment, message);
      case Replaying(r) => ReplayingLeaves(ledger, r, asked.moment, message);
      case _ => OthersLeave(ledger, asked, PublishedAt(message));
    }
  }

  /** How many times `message`'s Publication is written in a run. */
  function Publications(ledger: Ledger, asked: seq<Asked>, message: Id): nat
    decreases |asked|
  {
    if asked == [] then 0
    else (if Publishes(ledger, asked[0], message) then 1 else 0)
         + Publications(After(ledger, asked[0].op, asked[0].moment), asked[1..], message)
  }

  function One(written: bool): nat {
    if written then 1 else 0
  }

  /** Written once at most, and exactly where its record is there at the end and was not at
      the start; a record once there is never another. */
  lemma {:induction false} PublishedOnce(ledger: Ledger, asked: seq<Asked>, message: Id)
    ensures One(PublishedAt(message) in ledger.db) + Publications(ledger, asked, message)
         == One(PublishedAt(message) in RunAsked(ledger, asked).db)
    ensures PublishedAt(message) in ledger.db ==>
              Read(RunAsked(ledger, asked).db, PublishedAt(message)) == Read(ledger.db, PublishedAt(message))
    decreases |asked|
  {
    if asked != [] {
      PublishedAfter(ledger, asked[0], message);
      PublishedOnce(After(ledger, asked[0].op, asked[0].moment), asked[1..], message);
    }
  }

  /** `claim` stands on the Message `asked` is for, under the token asked. */
  predicate HeldFor(db: Db, asked: Claim, claim: Claim) {
    StoredOn(db, asked.journey) == Ok(Some(Stored(claim, Holding))) && claim.token == asked.token
  }

  /** The claims answered of those a Publication asked for: exactly those held under the token
      asked, as they stand. */
  lemma {:induction false} StillHeldAre(db: Db, claims: seq<Claim>)
    requires StillHeld(db, claims).Ok?
    ensures forall claim :: claim in StillHeld(db, claims).value <==>
              exists asked | asked in claims :: HeldFor(db, asked, claim)
    decreases |claims|
  {
    if claims != [] {
      StillHeldAre(db, claims[1..]);
      forall claim ensures claim in StillHeld(db, claims).value <==>
                           exists asked | asked in claims :: HeldFor(db, asked, claim)
      {
        HeldAmong(db, claims, claim);
        FirstHeld(db, claims, claim);
      }
    }
  }

  lemma HeldAmong(db: Db, claims: seq<Claim>, claim: Claim)
    requires claims != []
    ensures (exists asked | asked in claims :: HeldFor(db, asked, claim)) <==>
            HeldFor(db, claims[0], claim) || exists asked | asked in claims[1..] :: HeldFor(db, asked, claim)
  {
    if asked :| asked in claims && HeldFor(db, asked, claim) {
      assert asked == claims[0] || asked in claims[1..];
    }
    if asked :| asked in claims[1..] && HeldFor(db, asked, claim) {
      assert asked in claims;
    }
  }

  lemma FirstHeld(db: Db, claims: seq<Claim>, claim: Claim)
    requires claims != [] && StillHeld(db, claims).Ok?
    ensures StillHeld(db, claims[1..]).Ok?
    ensures claim in StillHeld(db, claims).value <==>
            HeldFor(db, claims[0], claim) || claim in StillHeld(db, claims[1..]).value
  {
    var stored := StoredOn(db, claims[0].journey).value;
    assert HeldFor(db, claims[0], claim) <==>
        stored.Some? && stored.value.AskedBy(claims[0]) && claim == stored.value.claim;
  }

  /** Asked again after any run, a Publication changes nothing and answers the claims its
      tokens still hold; asked as another for the same Message, it is refused. */
  lemma AskedAgain(ledger: Ledger, p: Publication, moment: Moment, between: seq<Asked>, q: Publication, again: Moment)
    requires Decide(ledger, Publishing(p), moment).Ok? && q.message.message == p.message.message
    ensures var later := RunAsked(After(ledger, Publishing(p), moment), between);
            && After(later, Publishing(q), again) == later
            && (q != p ==> Decide(later, Publishing(q), again) == Err(PublishedBefore))
            && (q == p && StillHeld(later.db, p.claims).Ok? ==>
                  Decide(later, Publishing(q), again)
                  == Ok(Decision(Claims(StillHeld(later.db, p.claims).value), later)))
  {
    var message := p.message.message;
    var wrote := After(ledger, Publishing(p), moment);
    PublishedAfter(ledger, Asked(Publishing(p), moment), message);
    assert Read(wrote.db, PublishedAt(message)) == Some(PublishedV(p));
    PublishedOnce(wrote, between, message);
  }

  // ---- Replays. ----

  /** The operation takes the entry of `message` out of the Dead Message Queue `queue`. */
  predicate Replays(ledger: Ledger, asked: Asked, queue: Id, message: Id) {
    && asked.op.Replaying? && asked.op.replay.queue == queue && asked.op.replay.message == message
    && Decide(ledger, asked.op, asked.moment).Ok?
    && Decide(ledger, asked.op, asked.moment).value.done == Done.Replays(ReplayedNow)
  }

  predicate TakenOut(db: Db, queue: Id, message: Id) {
    Read(db, By(DeadLine, queue, message)) == Some(TakenOutV)
  }

  /** A step that enters a dead Message takes none out. */
  lemma EnteringTakesNoneOut(db: Db, step: Step, queue: Id, message: Id)
    requires OfPublication(step) || step.GrantClaim? || step.PutPublished? || step.PutAudit?
    requires DoStep(db, step).Ok?
    ensures TakenOut(DoStep(db, step).value, queue, message) <==> TakenOut(db, queue, message)
  {
    if !step.KeepDead? {
      StepLeaves(db, step, By(DeadLine, queue, message));
    }
  }

  lemma {:induction false} EnteringTakesNone(db: Db, steps: seq<Step>, queue: Id, message: Id)
    requires forall step | step in steps ::
        OfPublication(step) || step.GrantClaim? || step.PutPublished? || step.PutAudit?
    requires RunSteps(db, steps).Ok?
    ensures TakenOut(RunSteps(db, steps).value, queue, message) <==> TakenOut(db, queue, message)
    decreases |steps|
  {
    if steps != [] {
      EnteringTakesNoneOut(db, steps[0], queue, message);
      EnteringTakesNone(DoStep(db, steps[0]).value, steps[1..], queue, message);
    }
  }

  lemma PublishingTakesNone(ledger: Ledger, p: Publication, moment: Moment, queue: Id, message: Id)
    ensures TakenOut(After(ledger, Publishing(p), moment).db, queue, message) <==> TakenOut(ledger.db, queue, message)
  {
    hide RunSteps, PublicationSteps, Grants, StillHeld;
    if Decide(ledger, Publishing(p), moment).Ok? {
      if PublishedAt(p.message.message) !in ledger.db {
        PublicationStepsAre(p);
        EnteringTakesNone(ledger.db, PublishSteps(p, ledger.next, moment, SaturatingAdd(moment.now, p.leaseNanos)),
                          queue, message);
      } else {
        RunsNone(ledger.db);
      }
    }
  }

  lemma ReplayStepsTake(db: Db, r: Replay, place: nat, next: nat, queue: Id, message: Id)
    requires RunSteps(db, ReplaySteps(r, place, next)).Ok?
    ensures TakenOut(RunSteps(db, ReplaySteps(r, place, next)).value, queue, message)
       <==> TakenOut(db, queue, message) || (r.queue == queue && r.message == message)
  {
    ReplayStepsAre(r, place, next);
    var steps := ReplaySteps(r, place, next);
    RunLeaves(DoStep(db, steps[0]).value, steps[1..], By(DeadLine, queue, message));
  }

  lemma ReplayingTakes(ledger: Ledger, r: Replay, moment: Moment, queue: Id, message: Id)
    ensures TakenOut(After(ledger, Replaying(r), moment).db, queue, message)
       <==> TakenOut(ledger.db, queue, message) || Replays(ledger, Asked(Replaying(r), moment), queue, message)
    ensures !(TakenOut(ledger.db, queue, message) && Replays(ledger, Asked(Replaying(r), moment), queue, message))
  {
    hide RunSteps, ReplaySteps;
    var placed := PlacedOf(ledger.db, DeadLine, r.queue, r.message);
    if Decide(ledger, Replaying(r), moment).Ok? {
      if placed.value.AtPlace? {
        ReplayStepsTake(ledger.db, r, placed.value.place, ledger.next, queue, message);
      } else {
        RunsNone(ledger.db);
      }
    }
  }

  lemma TakenOutAfter(ledger: Ledger, asked: Asked, queue: Id, message: Id)
    ensures One(TakenOut(After(ledger, asked.op, asked.moment).db, queue, message))
         == One(TakenOut(ledger.db, queue, message)) + One(Replays(ledger, asked, queue, message))
  {
    match asked.op {
      case Publishing(p) => PublishingTakesNone(ledger, p, asked.moment, queue, message);
      case Replaying(r) => ReplayingTakes(ledger, r, asked.moment, queue, message);
      case _ => OthersLeave(ledger, asked, By(DeadLine, queue, message));
    }
  }

  function Replayings(ledger: Ledger, asked: seq<Asked>, queue: Id, message: Id): nat
    decreases |asked|
  {
    if asked == [] then 0
    else One(Replays(ledger, asked[0], queue, message))
         + Replayings(After(ledger, asked[0].op, asked[0].moment), asked[1..], queue, message)
  }

  /** Replayed once at most: exactly where the entry is remembered taken out at the end and
      was not at the start. */
  lemma {:induction false} ReplayedOnce(ledger: Ledger, asked: seq<Asked>, queue: Id, message: Id)
    ensures One(TakenOut(ledger.db, queue, message)) + Replayings(ledger, asked, queue, message)
         == One(TakenOut(RunAsked(ledger, asked).db, queue, message))
    decreases |asked|
  {
    if asked != [] {
      TakenOutAfter(ledger, asked[0], queue, message);
      ReplayedOnce(After(ledger, asked[0].op, asked[0].moment), asked[1..], queue, message);
    }
  }

  /** Asked again after any run, a Replay answers that it was done before, and changes nothing. */
  lemma ReplayedAgain(ledger: Ledger, r: Replay, moment: Moment, between: seq<Asked>, other: Replay, again: Moment)
    requires Replays(ledger, Asked(Replaying(r), moment), r.queue, r.message)
    requires other.queue == r.queue && other.message == r.message
    ensures var later := RunAsked(After(ledger, Replaying(r), moment), between);
            Decide(later, Replaying(other), again) == Ok(Decision(Done.Replays(ReplayedBefore), later))
  {
    TakenOutAfter(ledger, Asked(Replaying(r), moment), r.queue, r.message);
    var wrote := After(ledger, Replaying(r), moment);
    ReplayedOnce(wrote, between, r.queue, r.message);
    RunsNone(RunAsked(wrote, between).db);
  }

  // ---- Across crashes. ----

  function Each(ops: seq<Op>, moment: Moment): seq<Asked> {
    seq(|ops|, i requires 0 <= i < |ops| => Asked(ops[i], moment))
  }

  /** The operations of every batch a log holds, in the order they were decided. */
  function Surviving(log: seq<Logged>): seq<Asked> {
    if log == [] then []
    else Surviving(log[..|log| - 1]) + Each(log[|log| - 1].group.ops, log[|log| - 1].group.moment)
  }

  lemma {:induction false} RunAskedParts(ledger: Ledger, first: seq<Asked>, rest: seq<Asked>)
    ensures RunAsked(ledger, first + rest) == RunAsked(RunAsked(ledger, first), rest)
    decreases |first|
  {
    if first == [] {
      assert first + rest == rest;
    } else {
      assert (first + rest)[0] == first[0] && (first + rest)[1..] == first[1..] + rest;
      RunAskedParts(After(ledger, first[0].op, first[0].moment), first[1..], rest);
    }
  }

  lemma {:induction false} SerialRuns(ledger: Ledger, ops: seq<Op>, moment: Moment)
    ensures Serial(ledger, ops, moment).after == RunAsked(ledger, Each(ops, moment))
    decreases |ops|
  {
    if ops != [] {
      assert Each(ops, moment)[1..] == Each(ops[1..], moment);
      SerialRuns(After(ledger, ops[0], moment), ops[1..], moment);
    }
  }

  lemma {:induction false} DecidedRuns(log: seq<Logged>)
    ensures Decided(log) == RunAsked(EMPTY, Surviving(log))
  {
    if log != [] {
      var last := log[|log| - 1];
      DecidedRuns(log[..|log| - 1]);
      SerialRuns(Decided(log[..|log| - 1]), last.group.ops, last.group.moment);
      RunAskedParts(EMPTY, Surviving(log[..|log| - 1]), Each(last.group.ops, last.group.moment));
    }
  }

  /** In every run of batches, syncs and crashes, the history that survives publishes a Message
      once at most, and exactly where its record survives; and it replays a dead entry so. */
  lemma OnceAcrossCrashes(events: seq<Event>, queue: Id, message: Id)
    requires CanRun(STARTED, events)
    ensures var s := Run(STARTED, events);
            && Publications(EMPTY, Surviving(s.log), message) == One(PublishedAt(message) in s.live.db)
            && Replayings(EMPTY, Surviving(s.log), queue, message) == One(TakenOut(s.live.db, queue, message))
  {
    var s := Run(STARTED, events);
    CrashSafe(events);
    DecidedRuns(s.log);
    PublishedOnce(EMPTY, Surviving(s.log), message);
    ReplayedOnce(EMPTY, Surviving(s.log), queue, message);
  }
}
