/** When a place held for many Messages is let go of (`origin.rs`), read from how many of the
    holder's Journeys are open and what closes. */
module Releasing {
  import opened Wrappers
  import opened Records
  import opened Queues
  import opened Holds
  import opened Origins
  import opened Steps
  import opened Operations
  import opened Shapes
  import opened Frames
  import opened Lines
  import opened Spots
  import opened Conserved
  import opened Moves
  import opened Once

  /** How many of a holder's Journeys are open, and where it holds a place. */
  function CountOf(db: Db, holder: Id): Origin {
    match Read(db, OriginOf(holder))
    case Some(OriginV(origin)) => origin
    case _ => Origin(0, [])
  }

  lemma {:induction false} QueuesNamed(queues: seq<Id>, places: seq<Hold>, holder: Id, queue: Id)
    ensures queue in WithQueues(queues, places, holder) <==> queue in queues || Named(places, queue, holder)
    decreases |places|
  {
    if places != [] {
      var more := if places[0].journey == holder && places[0].queue !in queues then queues + [places[0].queue] else queues;
      QueuesNamed(more, places[1..], holder, queue);
      assert Named(places, queue, holder)
        <==> (places[0].queue == queue && places[0].journey == holder) || Named(places[1..], queue, holder) by {
        assert forall hold :: hold in places <==> hold == places[0] || hold in places[1..];
      }
    }
  }

  /** A role `journey` has in a record counts: a Journey of it opened or closed, or a place for
      it queued. */
  predicate Counts(was: bool, holder: Option<Id>, opens: bool, places: seq<Hold>, journey: Id) {
    holder == Some(journey) && (was != opens || Takes(places, journey))
  }

  /** Its open Journeys after. */
  function OpenAfter(open: nat, was: bool, opens: bool): nat {
    if was == opens then open else if opens then open + 1 else if open == 0 then 0 else open - 1
  }

  lemma RoleCounts(db: Db, was: bool, holder: Option<Id>, opens: bool, places: seq<Hold>, queue: Id, journey: Id)
    requires Sound(db)
    ensures CountRole(db, was, holder, opens, places).Ok?
    ensures var before, after := CountOf(db, journey), CountOf(CountRole(db, was, holder, opens, places).value, journey);
            if !Counts(was, holder, opens, places, journey) then after == before
            else if OpenAfter(before.open, was, opens) == 0 then after == Origin(0, [])
            else after.open == OpenAfter(before.open, was, opens)
                 && (queue in after.queues <==> queue in before.queues || Named(places, queue, journey))
    ensures RoleReleases(db, was, holder, opens, places, queue, journey) <==>
              && Counts(was, holder, opens, places, journey) && OpenAfter(CountOf(db, journey).open, was, opens) == 0
              && (queue in CountOf(db, journey).queues || Named(places, queue, journey))
  {
    hide Sound, ReleaseAll, WithQueues, HeldOf, FailedOf, Named;
    CountRoleSpots(db, was, holder, opens, places, queue, journey);
    QueuesNamed(CountOf(db, journey).queues, places, journey, queue);
    if holder.Some? {
      var origin := OriginAt(db, holder.value);
      if origin.Ok? {
        ReleaseLeaves(db, WithQueues(origin.value.queues, places, holder.value), holder.value, OriginOf(journey));
      }
    }
  }

  // ---- Over every record an operation writes. ----

  /** A holder's open Journeys, and the queues its places are let go of in once none is. */
  datatype Tally = Tally(open: nat, queues: set<Id>)

  function TallyOf(db: Db, holder: Id): Tally {
    var kept := CountOf(db, holder);
    Tally(kept.open, set queue | queue in kept.queues)
  }

  function KeptIn(places: seq<Hold>, holder: Id): set<Id> {
    set place | place in places && place.journey == holder :: place.queue
  }

  function RoleTally(tally: Tally, was: bool, of: Option<Id>, opens: bool, places: seq<Hold>, holder: Id): Tally {
    if !Counts(was, of, opens, places, holder) then tally
    else if OpenAfter(tally.open, was, opens) == 0 then Tally(0, {})
    else Tally(OpenAfter(tally.open, was, opens), tally.queues + KeptIn(places, holder))
  }

  /** A role that counts leaves none open, in a queue the holder has a place in. */
  predicate RoleEmpties(tally: Tally, was: bool, of: Option<Id>, opens: bool, places: seq<Hold>, holder: Id, queue: Id) {
    && Counts(was, of, opens, places, holder) && OpenAfter(tally.open, was, opens) == 0
    && (queue in tally.queues || Named(places, queue, holder))
  }

  function Before(db: Db, journey: Id): Option<JourneyRecord> {
    match Read(db, JourneyAt(journey))
    case Some(JourneyV(record)) => Some(record)
    case _ => None
  }

  function OriginTally(tally: Tally, before: Option<JourneyRecord>, record: JourneyRecord, places: seq<Hold>, holder: Id)
    : Tally
  {
    RoleTally(tally, WasOrigin(before, record), record.origin, record.open, places, holder)
  }

  /** A holder's tally once a record is written: its origin's role counts first, then its group's. */
  function RecordTally(tally: Tally, before: Option<JourneyRecord>, record: JourneyRecord, places: seq<Hold>, holder: Id)
    : Tally
  {
    RoleTally(OriginTally(tally, before, record, places, holder), WasGroup(before, record), record.groupDelivery,
              record.groupOpen, places, holder)
  }

  predicate RecordEmpties(tally: Tally, before: Option<JourneyRecord>, record: JourneyRecord, places: seq<Hold>, holder: Id,
                          queue: Id) {
    || RoleEmpties(tally, WasOrigin(before, record), record.origin, record.open, places, holder, queue)
    || RoleEmpties(OriginTally(tally, before, record, places, holder), WasGroup(before, record), record.groupDelivery,
                   record.groupOpen, places, holder, queue)
  }

  /** The database once a Journey is written, as the next record of that Journey finds it. */
  function Noted(db: Db, record: JourneyRecord): Db {
    db[JourneyAt(record.journey) := JourneyV(record)]
  }

  function NotedAll(db: Db, records: seq<JourneyRecord>): Db
    decreases |records|
  {
    if records == [] then db else NotedAll(Noted(db, records[0]), records[1..])
  }

  /** A holder's tally once each record is written in turn. */
  function Tallied(db: Db, records: seq<JourneyRecord>, places: seq<Hold>, holder: Id, tally: Tally): Tally
    decreases |records|
  {
    if records == [] then tally
    else Tallied(Noted(db, records[0]), records[1..], places, holder,
                 RecordTally(tally, Before(db, records[0].journey), records[0], places, holder))
  }

  /** One of the records closes the holder's last open Journey, with a place of it in `queue`. */
  predicate Empties(db: Db, records: seq<JourneyRecord>, places: seq<Hold>, holder: Id, queue: Id, tally: Tally)
    decreases |records|
  {
    records != []
    && (RecordEmpties(tally, Before(db, records[0].journey), records[0], places, holder, queue)
        || Empties(Noted(db, records[0]), records[1..], places, holder, queue,
                   RecordTally(tally, Before(db, records[0].journey), records[0], places, holder)))
  }

  /** The Journeys read the same in both. */
  ghost predicate SameJourneys(db: Db, other: Db) {
    forall journey: Id :: Read(db, JourneyAt(journey)) == Read(other, JourneyAt(journey))
  }

  lemma {:induction false} TalliedSame(db: Db, other: Db, records: seq<JourneyRecord>, places: seq<Hold>,
                                       holder: Id, queue: Id, tally: Tally)
    requires SameJourneys(db, other)
    ensures Tallied(db, records, places, holder, tally) == Tallied(other, records, places, holder, tally)
    ensures Empties(db, records, places, holder, queue, tally) <==> Empties(other, records, places, holder, queue, tally)
    ensures SameJourneys(NotedAll(db, records), NotedAll(other, records))
    decreases |records|
  {
    hide RecordTally, RecordEmpties;
    if records != [] {
      assert SameJourneys(Noted(db, records[0]), Noted(other, records[0]));
      TalliedSame(Noted(db, records[0]), Noted(other, records[0]), records[1..], places, holder, queue,
                  RecordTally(tally, Before(db, records[0].journey), records[0], places, holder));
    }
  }

  lemma RoleTallies(db: Db, was: bool, of: Option<Id>, opens: bool, places: seq<Hold>, holder: Id, queue: Id)
    requires Sound(db)
    ensures CountRole(db, was, of, opens, places).Ok? && Sound(CountRole(db, was, of, opens, places).value)
    ensures TallyOf(CountRole(db, was, of, opens, places).value, holder)
         == RoleTally(TallyOf(db, holder), was, of, opens, places, holder)
    ensures RoleReleases(db, was, of, opens, places, queue, holder)
       <==> RoleEmpties(TallyOf(db, holder), was, of, opens, places, holder, queue)
  {
    hide Sound, RoleReleases, CountRole, OpenAfter;
    CountRoleSpots(db, was, of, opens, places, queue, holder);
    RoleCounts(db, was, of, opens, places, queue, holder);
    var tally, expected := TallyOf(CountRole(db, was, of, opens, places).value, holder),
                           RoleTally(TallyOf(db, holder), was, of, opens, places, holder);
    forall q ensures q in tally.queues <==> q in expected.queues {
      RoleCounts(db, was, of, opens, places, q, holder);
    }
  }

  lemma RecordTallies(db: Db, record: JourneyRecord, places: seq<Hold>, holder: Id, queue: Id)
    requires Sound(db)
    ensures Origins.Counted(db, record, places).Ok? && Sound(Origins.Counted(db, record, places).value)
    ensures var tally, before := TallyOf(db, holder), Before(db, record.journey);
            && TallyOf(Origins.Counted(db, record, places).value, holder)
               == RecordTally(tally, before, record, places, holder)
            && (CountReleases(db, record, places, queue, holder)
                <==> RecordEmpties(tally, before, record, places, holder, queue))
  {
    hide Sound, RoleReleases, RoleTally, RoleEmpties, CountRole, TallyOf;
    CountSpots(db, record, places, queue, holder);
    var before := Before(db, record.journey);
    assert JourneyOf(db, record.journey) == Ok(before) by { TypedJourney(db, record.journey); }
    RoleTallies(db, WasOrigin(before, record), record.origin, record.open, places, holder, queue);
    var first := CountRole(db, WasOrigin(before, record), record.origin, record.open, places).value;
    RoleTallies(first, WasGroup(before, record), record.groupDelivery, record.groupOpen, places, holder, queue);
  }

  lemma TypedJourney(db: Db, journey: Id)
    requires Sound(db)
    ensures JourneyOf(db, journey) == Ok(Before(db, journey))
  {
  }

  /** What writing Journeys does to a holder's tally, and what it lets go of. */
  lemma {:induction false} RecordsTally(db: Db, records: seq<JourneyRecord>, places: seq<Hold>, holder: Id, queue: Id)
    requires Sound(db)
    ensures var after := RunSteps(db, CountSteps(records, places));
            && after.Ok? && Sound(after.value)
            && TallyOf(after.value, holder) == Tallied(db, records, places, holder, TallyOf(db, holder))
            && (Releases(db, CountSteps(records, places), queue, holder)
                <==> Empties(db, records, places, holder, queue, TallyOf(db, holder)))
            && SameJourneys(after.value, NotedAll(db, records))
    decreases |records|
  {
    hide Sound, CountReleases, RecordTally, RecordEmpties, Origins.Counted;
    if records == [] {
      RunsNone(db);
    } else {
      var steps, rest := CountSteps(records, places), CountSteps(records[1..], places);
      assert steps[0] == Count(records[0], places) && steps[1..] == [PutJourney(records[0])] + rest;
      assert steps[1..][0] == PutJourney(records[0]) && steps[1..][1..] == rest;
      RecordTallies(db, records[0], places, holder, queue);
      var counted := Origins.Counted(db, records[0], places).value;
      StepSound(counted, PutJourney(records[0]));
      var next := Noted(counted, records[0]);
      assert TallyOf(next, holder) == TallyOf(counted, holder);
      forall journey: Id ensures Read(counted, JourneyAt(journey)) == Read(db, JourneyAt(journey)) {
        CountedLeaves(db, records[0], places, JourneyAt(journey));
      }
      assert SameJourneys(next, Noted(db, records[0]));
      RecordsTally(next, records[1..], places, holder, queue);
      TalliedSame(next, Noted(db, records[0]), records[1..], places, holder, queue, TallyOf(next, holder));
      assert Releases(counted, steps[1..], queue, holder) <==> Releases(next, rest, queue, holder);
    }
  }

  // ---- A hand-on's records, with the Messages it made between them. ----

  lemma {:induction false} ReleasesAppended(db: Db, first: seq<Step>, rest: seq<Step>, queue: Id, journey: Id)
    requires RunSteps(db, first).Ok?
    ensures Releases(db, first + rest, queue, journey)
       <==> Releases(db, first, queue, journey) || Releases(RunSteps(db, first).value, rest, queue, journey)
    decreases |first|
  {
    hide StepReleases;
    if first == [] {
      assert first + rest == rest;
    } else {
      assert (first + rest)[0] == first[0] && (first + rest)[1..] == first[1..] + rest;
      ReleasesAppended(DoStep(db, first[0]).value, first[1..], rest, queue, journey);
    }
  }

  lemma {:induction false} ReleasesNone(db: Db, steps: seq<Step>, queue: Id, journey: Id)
    requires forall step | step in steps :: step.PutMessage?
    ensures !Releases(db, steps, queue, journey)
    decreases |steps|
  {
    if steps != [] {
      assert steps[0] in steps;
      ReleasesNone(DoStep(db, steps[0]).value, steps[1..], queue, journey);
    }
  }

  /** Whatever records a hand-on writes: how they leave the holder's tally, and what they let go of. */
  lemma WroteTallies(db: Db, h: HandOn, holder: Id, queue: Id)
    requires Sound(db)
    ensures var after := RunSteps(db, Wrote(h));
            && after.Ok? && Sound(after.value)
            && TallyOf(after.value, holder) == Tallied(db, [h.result] + h.next, h.queued, holder, TallyOf(db, holder))
            && (LetsGo(db, h, queue, holder)
                <==> Empties(db, [h.result] + h.next, h.queued, holder, queue, TallyOf(db, holder)))
            && SameJourneys(after.value, NotedAll(db, [h.result] + h.next))
  {
    hide Sound, RecordTally, RecordEmpties, RunSteps, Releases, CountSteps;
    var result, messages, next := CountSteps([h.result], h.queued), MessageSteps(h.messages), CountSteps(h.next, h.queued);
    RecordsTally(db, [h.result], h.queued, holder, queue);
    var one := RunSteps(db, result).value;
    RunAppended(db, result, messages + next);
    ReleasesAppended(db, result, messages + next, queue, holder);
    RunSound(one, messages);
    var made := RunSteps(one, messages).value;
    RunAppended(one, messages, next);
    ReleasesNone(one, messages, queue, holder);
    ReleasesAppended(one, messages, next, queue, holder);
    RunLeaves(one, messages, OriginOf(holder));
    RecordsTally(made, h.next, h.queued, holder, queue);
    forall journey: Id ensures Read(made, JourneyAt(journey)) == Read(Noted(db, h.result), JourneyAt(journey)) {
      RunLeaves(one, messages, JourneyAt(journey));
      assert [h.result][1..] == [] && NotedAll(db, [h.result]) == Noted(db, h.result);
    }
    TalliedSame(made, Noted(db, h.result), h.next, h.queued, holder, queue, TallyOf(made, holder));
    ThenNext(db, h, holder, queue, TallyOf(db, holder));
  }

  /** The result is counted first, then what follows. */
  lemma ThenNext(db: Db, h: HandOn, holder: Id, queue: Id, tally: Tally)
    ensures NotedAll(db, [h.result] + h.next) == NotedAll(Noted(db, h.result), h.next)
    ensures var records := [h.result] + h.next; var counted := Tallied(db, [h.result], h.queued, holder, tally);
            && Tallied(db, records, h.queued, holder, tally)
               == Tallied(Noted(db, h.result), h.next, h.queued, holder, counted)
            && (Empties(db, records, h.queued, holder, queue, tally)
                <==> Empties(db, [h.result], h.queued, holder, queue, tally)
                     || Empties(Noted(db, h.result), h.next, h.queued, holder, queue, counted))
  {
    hide RecordTally, RecordEmpties;
    var records := [h.result] + h.next;
    assert records[0] == h.result && records[1..] == h.next && [h.result][1..] == [];
    var counted := RecordTally(tally, Before(db, h.result.journey), h.result, h.queued, holder);
    assert Tallied(Noted(db, h.result), [], h.queued, holder, counted) == counted;
    assert !Empties(Noted(db, h.result), [], h.queued, holder, queue, counted);
  }

  /** What a hand-on lets go of unnamed: exactly the places of a holder whose last open Journey one
      of its records closes, in the queues it has a place in by then. */
  lemma LetsGoWhere(db: Db, h: HandOn, queue: Id, journey: Id)
    requires Sound(db)
    ensures LetsGo(db, h, queue, journey)
       <==> Empties(db, [h.result] + h.next, h.queued, journey, queue, TallyOf(db, journey))
  {
    WroteTallies(db, h, journey, queue);
  }

  // ---- The records a Publication or a Replay opens. ----

  function OpenedWith(op: Op): seq<JourneyRecord> {
    match op
    case Publishing(p) => p.journeys
    case Replaying(r) => r.journeys
    case _ => []
  }

  /** So of what they let go of. */
  lemma OpensLetGoWhere(ledger: Ledger, asked: Asked, queue: Id, journey: Id)
    requires Sound(ledger.db)
    ensures OpensLetGo(ledger, asked, queue, journey)
       <==> Opens(ledger, asked)
            && Empties(ledger.db, OpenedWith(asked.op), Queued(asked.op), journey, queue, TallyOf(ledger.db, journey))
  {
    hide Sound, Releases, Empties, RunSteps;
    if Opens(ledger, asked) {
      var db, first := ledger.db, FirstOf(ledger, asked);
      OpensAfter(ledger, asked);
      var next := DoStep(db, first).value;
      RecordsTally(next, OpenedWith(asked.op), Queued(asked.op), journey, queue);
      FirstLeaves(db, first, journey);
      TalliedSame(next, db, OpenedWith(asked.op), Queued(asked.op), journey, queue, TallyOf(db, journey));
    }
  }

  /** What they do before they count. */
  function FirstOf(ledger: Ledger, asked: Asked): Step
    requires Opens(ledger, asked)
  {
    match asked.op
    case Publishing(p) => PutMessage(p.message)
    case Replaying(r) => TakeDead(r.queue, r.message, PlacedOf(ledger.db, DeadLine, r.queue, r.message).value.place)
  }

  lemma FirstLeaves(db: Db, first: Step, holder: Id)
    requires (first.PutMessage? || first.TakeDead?) && DoStep(db, first).Ok?
    ensures SameJourneys(DoStep(db, first).value, db) && TallyOf(DoStep(db, first).value, holder) == TallyOf(db, holder)
  {
    hide DoStep;
    var next := DoStep(db, first).value;
    forall journey: Id ensures Read(next, JourneyAt(journey)) == Read(db, JourneyAt(journey)) {
      StepLeaves(db, first, JourneyAt(journey));
    }
    StepLeaves(db, first, OriginOf(holder));
  }

  lemma OpensAfter(ledger: Ledger, asked: Asked)
    requires Sound(ledger.db) && Opens(ledger, asked)
    ensures DoStep(ledger.db, FirstOf(ledger, asked)).Ok? && Sound(DoStep(ledger.db, FirstOf(ledger, asked)).value)
  {
    match asked.op {
      case Publishing(p) => StepSound(ledger.db, PutMessage(p.message));
      case Replaying(r) =>
        TakeDeadSpot(ledger.db, r, PlacedOf(ledger.db, DeadLine, r.queue, r.message).value.place, 0, 0);
    }
  }
}
