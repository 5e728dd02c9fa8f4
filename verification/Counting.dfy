/** How many Journeys each holder of places has open, and when the count kept of them is exact
    (`origin.rs`). */
module Counting {
  import opened Wrappers
  import opened Records
  import opened Queues
  import opened Holds
  import opened Origins
  import opened Steps
  import opened Operations
  import opened Shapes
  import opened Frames
  import opened Lines
  import opened Spots
  import opened Conserved
  import opened Once
  import opened Repeats
  import opened Turns
  import opened Moves
  import opened Releasing

  // ---- The Journeys there are. ----

  predicate OpenFrom(record: Option<JourneyRecord>, holder: Id) {
    record.Some? && record.value.origin == Some(holder) && record.value.open
  }

  predicate OpenIn(record: Option<JourneyRecord>, holder: Id) {
    record.Some? && record.value.groupDelivery == Some(holder) && record.value.groupOpen
  }

  function FromOf(db: Db, holder: Id): set<Key> {
    set key | key in db && key.JourneyAt? && OpenFrom(Before(db, key.id), holder)
  }

  function InOf(db: Db, holder: Id): set<Key> {
    set key | key in db && key.JourneyAt? && OpenIn(Before(db, key.id), holder)
  }

  /** How many Journeys are open for a holder, as their origin or as their Group's delivery. */
  function OpenOf(db: Db, holder: Id): nat {
    |FromOf(db, holder)| + |InOf(db, holder)|
  }

  /** The count kept of a holder is how many there are. */
  predicate Exact(db: Db, holder: Id) {
    CountOf(db, holder).open == OpenOf(db, holder)
  }

  lemma OpenSame(db: Db, other: Db, holder: Id)
    requires SameJourneys(db, other)
    ensures OpenOf(db, holder) == OpenOf(other, holder)
  {
    forall key: Key | key.JourneyAt? ensures Read(db, key) == Read(other, key) {
      assert Read(db, JourneyAt(key.id)) == Read(other, JourneyAt(key.id));
    }
    assert FromOf(db, holder) == FromOf(other, holder) && InOf(db, holder) == InOf(other, holder);
  }

  // ---- A Journey written. ----

  lemma OneMoved(was: set<Key>, now: set<Key>, key: Key)
    requires forall k | k != key :: k in was <==> k in now
    ensures |now| + One(key in was) == |was| + One(key in now)
  {
    assert was - {key} == now - {key};
    assert |was - {key}| == |was| - One(key in was) && |now - {key}| == |now| - One(key in now);
  }

  lemma OpenNoted(db: Db, record: JourneyRecord, holder: Id)
    ensures var before := Before(db, record.journey); var next := Noted(db, record);
            && |FromOf(next, holder)| + One(OpenFrom(before, holder))
               == |FromOf(db, holder)| + One(OpenFrom(Some(record), holder))
            && |InOf(next, holder)| + One(OpenIn(before, holder))
               == |InOf(db, holder)| + One(OpenIn(Some(record), holder))
  {
    var key, next := JourneyAt(record.journey), Noted(db, record);
    assert forall k: Key | k != key :: Read(next, k) == Read(db, k);
    OneMoved(FromOf(db, holder), FromOf(next, holder), key);
    OneMoved(InOf(db, holder), InOf(next, holder), key);
  }

  /** The record keeps the holder where the one it replaces was open for it. */
  predicate Keeps(before: Option<JourneyRecord>, record: JourneyRecord, holder: Id) {
    && (OpenFrom(before, holder) ==> record.origin == Some(holder))
    && (OpenIn(before, holder) ==> record.groupDelivery == Some(holder))
  }

  /** Each does, of the one before it. */
  predicate AllKeep(db: Db, records: seq<JourneyRecord>, holder: Id)
    decreases |records|
  {
    records == []
    || (Keeps(Before(db, records[0].journey), records[0], holder) && AllKeep(Noted(db, records[0]), records[1..], holder))
  }

  lemma RoleDrift(tally: Tally, before: Option<JourneyRecord>, record: JourneyRecord, places: seq<Hold>, holder: Id,
                  from: nat, within: nat)
    requires tally.open >= from + within
    requires OpenFrom(before, holder) ==> from > 0
    requires OpenIn(before, holder) ==> within > 0
    ensures var after := RecordTally(tally, before, record, places, holder).open;
            var open := from + within - One(OpenFrom(before, holder)) - One(OpenIn(before, holder))
                         + One(OpenFrom(Some(record), holder)) + One(OpenIn(Some(record), holder));
            && after >= open
            && (after == open <==> tally.open == from + within && Keeps(before, record, holder))
  {
  }

  lemma OpenThere(db: Db, record: JourneyRecord, holder: Id)
    ensures OpenFrom(Before(db, record.journey), holder) ==> |FromOf(db, holder)| > 0
    ensures OpenIn(Before(db, record.journey), holder) ==> |InOf(db, holder)| > 0
  {
    var key := JourneyAt(record.journey);
    assert OpenFrom(Before(db, record.journey), holder) ==> key in FromOf(db, holder);
    assert OpenIn(Before(db, record.journey), holder) ==> key in InOf(db, holder);
  }

  /** Counted as they are written, Journeys leave a count that is no less than it should be no less,
      and exact exactly where it was and each keeps the holder it was open for. */
  lemma {:induction false} Drift(db: Db, records: seq<JourneyRecord>, places: seq<Hold>, holder: Id, tally: Tally)
    requires tally.open >= OpenOf(db, holder)
    ensures var after, open := Tallied(db, records, places, holder, tally).open, OpenOf(NotedAll(db, records), holder);
            after >= open && (after == open <==> tally.open == OpenOf(db, holder) && AllKeep(db, records, holder))
    decreases |records|
  {
    hide RecordTally, Keeps, OpenFrom, OpenIn, FromOf, InOf;
    if records != [] {
      var before := Before(db, records[0].journey);
      OpenNoted(db, records[0], holder);
      OpenThere(db, records[0], holder);
      RoleDrift(tally, before, records[0], places, holder, |FromOf(db, holder)|, |InOf(db, holder)|);
      Drift(Noted(db, records[0]), records[1..], places, holder, RecordTally(tally, before, records[0], places, holder));
    }
  }

  // ---- An operation, and a run of them. ----

  /** The records an operation that takes effect writes counted. */
  function RecordsOf(ledger: Ledger, asked: Asked): seq<JourneyRecord> {
    match HandsOn(ledger, asked)
    case Some(h) => [h.result] + h.next
    case None => if Opens(ledger, asked) then OpenedWith(asked.op) else []
  }

  /** With the places taken. */
  function PlacesOf(ledger: Ledger, asked: Asked): seq<Hold> {
    match HandsOn(ledger, asked)
    case Some(h) => h.queued
    case None => Queued(asked.op)
  }

  /** What an operation leaves a holder's count at, and the Journeys. */
  ghost predicate Counted(ledger: Ledger, asked: Asked, after: Db, holder: Id) {
    var records := RecordsOf(ledger, asked);
    && TallyOf(after, holder) == Tallied(ledger.db, records, PlacesOf(ledger, asked), holder, TallyOf(ledger.db, holder))
    && SameJourneys(after, NotedAll(ledger.db, records))
  }

  predicate CountsNone(step: Step) {
    !step.Count? && !step.PutJourney?
  }

  lemma RestCounts(db: Db, steps: seq<Step>, holder: Id)
    requires RunSteps(db, steps).Ok? && forall step | step in steps :: CountsNone(step)
    ensures TallyOf(RunSteps(db, steps).value, holder) == TallyOf(db, holder)
    ensures SameJourneys(RunSteps(db, steps).value, db)
  {
    hide RunSteps;
    assert NoneWrites(steps, OriginOf(holder));
    RunLeaves(db, steps, OriginOf(holder));
    var after := RunSteps(db, steps).value;
    forall journey: Id ensures Read(after, JourneyAt(journey)) == Read(db, JourneyAt(journey)) {
      assert NoneWrites(steps, JourneyAt(journey));
      RunLeaves(db, steps, JourneyAt(journey));
    }
  }

  lemma HandOnCounts(ledger: Ledger, h: HandOn, moment: Moment, holder: Id)
    requires Sound(ledger.db) && TookEffect(ledger, h, moment)
    ensures Counted(ledger, Asked(HandingOn(h), moment), After(ledger, HandingOn(h), moment).db, holder)
  {
    hide RunSteps, Sound, Wrote, Moves.Moved, Stands, TookEffect, Tallied, NotedAll, TallyOf, SameJourneys;
    var held := StoredClaim(ledger, h, moment);
    var wrote, there, stood := HandOnRuns(ledger, h, moment);
    WroteTallies(ledger.db, h, holder, 0);
    MovedCounts(h, moment.now, held);
    RestCounts(wrote, Moves.Moved(h), holder);
    RestCounts(there, Stands(h, moment.now), holder);
    RestCounts(stood, [LastStep(h, held, moment.now)], holder);
    SameThrough(After(ledger, HandingOn(h), moment).db, stood, there);
    SameThrough(After(ledger, HandingOn(h), moment).db, there, wrote);
    SameThrough(After(ledger, HandingOn(h), moment).db, wrote, NotedAll(ledger.db, [h.result] + h.next));
  }

  lemma SameThrough(db: Db, one: Db, other: Db)
    requires SameJourneys(db, one) && SameJourneys(one, other)
    ensures SameJourneys(db, other)
  {
  }

  lemma MovedCounts(h: HandOn, now: int, held: Claim)
    ensures forall step | step in Moves.Moved(h) :: CountsNone(step)
    ensures forall step | step in Stands(h, now) :: CountsNone(step)
    ensures CountsNone(LastStep(h, held, now))
  {
  }

  lemma TurnCounts(ledger: Ledger, t: Turn, moment: Moment, holder: Id)
    requires Sound(ledger.db) && TurnTook(ledger, t, moment)
    ensures Counted(ledger, Asked(Turning(t), moment), After(ledger, Turning(t), moment).db, holder)
  {
    hide RunSteps, Sound, TurnSteps, Tallied, NotedAll, TallyOf, SameJourneys, After;
    var handed := TurnRuns(ledger, t, moment);
    HandOnCounts(ledger, t.handOn, moment, holder);
    TurnStepsAre(t);
    RestCounts(handed, TurnSteps(t), holder);
    SameThrough(After(ledger, Turning(t), moment).db, handed, NotedAll(ledger.db, [t.handOn.result] + t.handOn.next));
  }

  lemma OpensCounts(ledger: Ledger, asked: Asked, rest: seq<Step>, holder: Id)
    requires Sound(ledger.db) && Opens(ledger, asked) && forall step | step in rest :: CountsNone(step)
    requires RunSteps(ledger.db, [FirstOf(ledger, asked)] + (CountSteps(OpenedWith(asked.op), Queued(asked.op)) + rest))
          == Ok(After(ledger, asked.op, asked.moment).db)
    ensures Counted(ledger, asked, After(ledger, asked.op, asked.moment).db, holder)
  {
    hide RunSteps, Sound, Tallied, NotedAll, TallyOf, After, FirstOf, Opens;
    var first := FirstOf(ledger, asked);
    var records, places := OpenedWith(asked.op), Queued(asked.op);
    OpensAfter(ledger, asked);
    var next := DoStep(ledger.db, first).value;
    RunAppended(ledger.db, [first], CountSteps(records, places) + rest);
    RunsOne(ledger.db, first);
    FirstIs(ledger, asked);
    FirstLeaves(ledger.db, first, holder);
    RunAppended(next, CountSteps(records, places), rest);
    RecordsTally(next, records, places, holder, 0);
    var counted := RunSteps(next, CountSteps(records, places)).value;
    RestCounts(counted, rest, holder);
    TalliedSame(next, ledger.db, records, places, holder, 0, TallyOf(ledger.db, holder));
    SameThrough(After(ledger, asked.op, asked.moment).db, counted, NotedAll(next, records));
    SameThrough(After(ledger, asked.op, asked.moment).db, NotedAll(next, records), NotedAll(ledger.db, records));
    assert HandsOn(ledger, asked).None? && Opens(ledger, asked);
  }

  lemma FirstIs(ledger: Ledger, asked: Asked)
    requires Opens(ledger, asked)
    ensures FirstOf(ledger, asked).PutMessage? || FirstOf(ledger, asked).TakeDead?
    ensures HandsOn(ledger, asked).None?
  {
  }

  lemma PublishCounts(ledger: Ledger, p: Publication, moment: Moment, holder: Id)
    requires Sound(ledger.db) && Opens(ledger, Asked(Publishing(p), moment))
    ensures Counted(ledger, Asked(Publishing(p), moment), After(ledger, Publishing(p), moment).db, holder)
  {
    hide RunSteps, Sound, After, PublishSteps;
    PublishDecides(ledger, p, moment);
    PublishParts(p, ledger.next, moment);
    var rest := JoinSteps(p.held) + AfterOpening(p, ledger.next, moment);
    assert PublishSteps(p, ledger.next, moment, SaturatingAdd(moment.now, p.leaseNanos))
        == [PutMessage(p.message)] + (CountSteps(p.journeys, p.held) + rest);
    OpensCounts(ledger, Asked(Publishing(p), moment), rest, holder);
  }

  lemma SoundTyped(db: Db)
    requires Sound(db)
    ensures Typed(db)
  {
  }

  lemma ReplayCounts(ledger: Ledger, r: Replay, moment: Moment, holder: Id)
    requires Sound(ledger.db) && Opens(ledger, Asked(Replaying(r), moment))
    ensures Counted(ledger, Asked(Replaying(r), moment), After(ledger, Replaying(r), moment).db, holder)
  {
    hide RunSteps, Sound;
    var place := PlacedOf(ledger.db, DeadLine, r.queue, r.message).value.place;
    var rest := JoinSteps(r.held) + [PutAudit(ledger.next, r.audit)];
    assert ReplaySteps(r, place, ledger.next)
        == [TakeDead(r.queue, r.message, place)] + (CountSteps(r.journeys, r.held) + rest);
    SoundTyped(ledger.db);
    DecideTyped(ledger, Replaying(r), moment);
    OpensCounts(ledger, Asked(Replaying(r), moment), rest, holder);
  }

  /** Any other operation but a Journey written alone writes none. */
  lemma ElseCounts(ledger: Ledger, asked: Asked, holder: Id)
    requires Sound(ledger.db) && HandsOn(ledger, asked).None? && !Opens(ledger, asked) && !asked.op.WriteJourney?
    ensures Counted(ledger, asked, After(ledger, asked.op, asked.moment).db, holder)
  {
    hide RunSteps, HandOnSteps, TurnSteps, Renewed, Current, Grants, StillHeld, TallyOf;
    var db := ledger.db;
    match asked.op {
      case HandingOn(h) =>
        if Decide(ledger, asked.op, asked.moment).Ok? {
          HandOnAnswers(ledger, h, asked.moment);
        }
      case Turning(t) =>
        TurnIsHandOn(ledger, t, asked.moment);
        TurnStepsAre(t);
        if RunSteps(db, TurnSteps(t)).Ok? {
          RestCounts(db, TurnSteps(t), holder);
        }
      case Publishing(_) => RunsNone(db);
      case Replaying(_) => RunsNone(db);
      case WriteJourney(_) => assert false;
      case _ =>
        var plan := PlanOf(db, ledger.next, asked.op, asked.moment);
        if plan.Ok? && RunSteps(db, plan.value.steps).Ok? {
          RestCounts(db, plan.value.steps, holder);
        }
    }
  }

  lemma AfterCounts(ledger: Ledger, asked: Asked, holder: Id)
    requires Sound(ledger.db) && !asked.op.WriteJourney?
    ensures Counted(ledger, asked, After(ledger, asked.op, asked.moment).db, holder)
  {
    hide Counted, After, Sound;
    if Opens(ledger, asked) {
      match asked.op {
        case Publishing(p) => PublishCounts(ledger, p, asked.moment, holder);
        case Replaying(r) => ReplayCounts(ledger, r, asked.moment, holder);
      }
    } else if HandsOn(ledger, asked).Some? {
      match asked.op {
        case HandingOn(h) => HandOnCounts(ledger, h, asked.moment, holder);
        case Turning(t) => TurnCounts(ledger, t, asked.moment, holder);
      }
    } else {
      ElseCounts(ledger, asked, holder);
    }
  }

  /** Exactly when an operation keeps a holder's count exact: each Journey it writes keeps the holder
      where the one it replaces was open for it; and one written alone, which is not counted, is
      open for it as the one it replaces was. */
  predicate KeepsExact(ledger: Ledger, asked: Asked, holder: Id) {
    match asked.op
    case WriteJourney(record) =>
      var before := Before(ledger.db, record.journey);
      One(OpenFrom(before, holder)) + One(OpenIn(before, holder))
      == One(OpenFrom(Some(record), holder)) + One(OpenIn(Some(record), holder))
    case _ => AllKeep(ledger.db, RecordsOf(ledger, asked), holder)
  }

  lemma AfterExact(ledger: Ledger, asked: Asked, holder: Id)
    requires Sound(ledger.db) && Exact(ledger.db, holder)
    ensures Exact(After(ledger, asked.op, asked.moment).db, holder) <==> KeepsExact(ledger, asked, holder)
  {
    hide RunSteps, OpenFrom, OpenIn, FromOf, InOf, Sound;
    match asked.op {
      case WriteJourney(record) =>
        RunsOne(ledger.db, PutJourney(record));
        OpenNoted(ledger.db, record, holder);
        OpenThere(ledger.db, record, holder);
      case _ =>
        hide After, RecordsOf, AllKeep, Tallied, NotedAll;
        AfterCounts(ledger, asked, holder);
        var after, records := After(ledger, asked.op, asked.moment).db, RecordsOf(ledger, asked);
        OpenSame(after, NotedAll(ledger.db, records), holder);
        Drift(ledger.db, records, PlacesOf(ledger, asked), holder, TallyOf(ledger.db, holder));
    }
  }

  /** At every point of the run. */
  predicate ExactThroughout(ledger: Ledger, asked: seq<Asked>, holder: Id)
    decreases |asked|
  {
    && Exact(ledger.db, holder)
    && (asked == [] || ExactThroughout(After(ledger, asked[0].op, asked[0].moment), asked[1..], holder))
  }

  predicate AllKeepExact(ledger: Ledger, asked: seq<Asked>, holder: Id)
    decreases |asked|
  {
    asked == []
    || (KeepsExact(ledger, asked[0], holder)
        && AllKeepExact(After(ledger, asked[0].op, asked[0].moment), asked[1..], holder))
  }

  /** Throughout a run a holder's count is how many Journeys are open for it if and only if every
      operation of the run keeps it so. */
  lemma {:induction false} RunsExact(ledger: Ledger, asked: seq<Asked>, holder: Id)
    requires Sound(ledger.db) && Exact(ledger.db, holder)
    ensures ExactThroughout(ledger, asked, holder) <==> AllKeepExact(ledger, asked, holder)
    decreases |asked|
  {
    hide Exact, KeepsExact, Sound;
    if asked != [] {
      AfterExact(ledger, asked[0], holder);
      AfterSound(ledger, asked[0]);
      var after := After(ledger, asked[0].op, asked[0].moment);
      if Exact(after.db, holder) {
        RunsExact(after, asked[1..], holder);
      }
    }
  }

  /** So from an empty database, whatever nodes ask in whatever order. */
  lemma EveryRunExact(asked: seq<Asked>, holder: Id)
    ensures var empty := Ledger(map[], 0);
            ExactThroughout(empty, asked, holder) <==> AllKeepExact(empty, asked, holder)
  {
    EmptySound();
    assert FromOf(map[], holder) == {} && InOf(map[], holder) == {};
    RunsExact(Ledger(map[], 0), asked, holder);
  }

  // ---- The last Journey to close. ----

  lemma {:induction false} SomeEmpties(db: Db, records: seq<JourneyRecord>, places: seq<Hold>, holder: Id, queue: Id,
                                       tally: Tally)
    requires tally.open > 0 && queue in tally.queues && Tallied(db, records, places, holder, tally).open == 0
    ensures Empties(db, records, places, holder, queue, tally)
    decreases |records|
  {
    var before := Before(db, records[0].journey);
    var next := RecordTally(tally, before, records[0], places, holder);
    if next.open > 0 && queue in next.queues {
      SomeEmpties(Noted(db, records[0]), records[1..], places, holder, queue, next);
    }
  }

  /** Where a holder's count is exact and stays so, an operation after which none of its Journeys is
      open, and some was, lets go of its place in every queue it is counted in. */
  lemma LastLetsGo(ledger: Ledger, asked: Asked, queue: Id, holder: Id)
    requires Sound(ledger.db) && Exact(ledger.db, holder) && KeepsExact(ledger, asked, holder) && !asked.op.WriteJourney?
    requires OpenOf(ledger.db, holder) > 0 && OpenOf(After(ledger, asked.op, asked.moment).db, holder) == 0
    requires queue in CountOf(ledger.db, holder).queues
    ensures match HandsOn(ledger, asked)
            case Some(h) => LetsGo(ledger.db, h, queue, holder)
            case None => OpensLetGo(ledger, asked, queue, holder)
  {
    hide After, Sound, OpenOf, Empties, Tallied, HandsOn, Opens;
    AfterCounts(ledger, asked, holder);
    AfterExact(ledger, asked, holder);
    SomeEmpties(ledger.db, RecordsOf(ledger, asked), PlacesOf(ledger, asked), holder, queue, TallyOf(ledger.db, holder));
    match HandsOn(ledger, asked) {
      case Some(h) => LetsGoWhere(ledger.db, h, queue, holder);
      case None =>
        OpensLetGoWhere(ledger, asked, queue, holder);
        NoneEmpty(ledger.db, PlacesOf(ledger, asked), holder, queue, TallyOf(ledger.db, holder));
    }
  }

  lemma NoneEmpty(db: Db, places: seq<Hold>, holder: Id, queue: Id, tally: Tally)
    ensures !Empties(db, [], places, holder, queue, tally)
  {
  }
}
