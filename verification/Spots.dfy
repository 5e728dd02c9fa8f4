/** The queues as a reader of the design sees them — who waits where, in which order — and that
    every step changes the records of a queue as it changes that. */
module Spots {
  import opened Wrappers
  import opened Records
  import opened Queues
  import opened Holds
  import Origins
  import opened Steps
  import opened Shapes
  import opened Frames
  import opened Lines

  /** The Message of `journey` as `queue` holds it, where it does. */
  function HeldOf(db: Db, queue: Id, journey: Id): Option<Held> {
    match Read(db, By(HeldLine, queue, journey))
    case Some(PlaceV(place)) =>
      (match Read(db, Entry(HeldLine, queue, place)) case Some(HeldV(held)) => Some(held) case _ => None)
    case _ => None
  }

  /** It as the queue's index of failed Messages has it, where it does. */
  function FailedOf(db: Db, queue: Id, journey: Id): Option<FailedEntry> {
    match Read(db, By(FailedLine, queue, journey))
    case Some(PlaceV(place)) =>
      (match Read(db, Entry(FailedLine, queue, place)) case Some(FailedV(failed)) => Some(failed) case _ => None)
    case _ => None
  }

  /** The place the next entry of a queue takes. */
  function NextOf(db: Db, kind: Kind, queue: Id): nat {
    match PlacesOf(db, kind, queue)
    case Ok(places) => places.next
    case Err(_) => 0
  }

  // ---- What a step does to a queue, said of the queue. ----

  /** `journey` in `queue` after a step that is no count, from how it was there. */
  function HeldAfter(step: Step, queue: Id, journey: Id, was: Option<Held>, next: nat): Option<Held> {
    match step
    case Leave(q, j) => if q == queue && j == journey then None else was
    case Join(hold) =>
      if hold.queue == queue && hold.journey == journey && was.None? then Some(Held(next, hold, false, None)) else was
    case MoveToEnd(q, j) =>
      if q == queue && j == journey && was.Some? then Some(Held(next, was.value.hold, false, None)) else was
    case Fail(j, failure, _) =>
      if failure.queue == queue && j == journey && was.Some? && !was.value.failed then Some(Marked(was.value, true))
      else was
    case Unfail(q, j) =>
      if q == queue && j == journey && was.Some? && was.value.failed then Some(Marked(was.value, false)) else was
    case Defer(q, j, due) =>
      if q == queue && j == journey && was.Some? then Some(was.value.(due := Some(due))) else was
    case _ => was
  }

  /** Its entry in the index of failed Messages so. */
  function FailedAfter(step: Step, queue: Id, journey: Id, held: Option<Held>, was: Option<FailedEntry>, next: nat): Option<FailedEntry> {
    match step
    case Fail(j, failure, at) =>
      if failure.queue == queue && j == journey && held.Some? && was.None? then
        Some(FailedEntry(queue, next, journey, held.value.sequence, failure.reason, at))
      else was
    case Unfail(q, j) => if q == queue && j == journey then None else was
    case _ => was
  }

  // ---- The step's records do so. ----

  lemma HeldIsPlaced(db: Db, queue: Id, journey: Id)
    requires Sound(db)
    ensures By(HeldLine, queue, journey) in db <==> HeldOf(db, queue, journey).Some?
    ensures HeldOf(db, queue, journey).Some? ==>
              var held := HeldOf(db, queue, journey).value;
              && PlacedOf(db, HeldLine, queue, journey) == Ok(AtPlace(held.sequence))
              && Read(db, Entry(HeldLine, queue, held.sequence)) == Some(HeldV(held))
              && held.hold.queue == queue && held.hold.journey == journey
              && held.sequence < NextOf(db, HeldLine, queue)
  {
    assert LineOk(db, HeldLine, queue);
  }

  lemma FailedIsPlaced(db: Db, queue: Id, journey: Id)
    requires Sound(db)
    ensures By(FailedLine, queue, journey) in db <==> FailedOf(db, queue, journey).Some?
    ensures FailedOf(db, queue, journey).Some? ==>
              var failed := FailedOf(db, queue, journey).value;
              && PlacedOf(db, FailedLine, queue, journey) == Ok(AtPlace(failed.sequence))
              && Read(db, Entry(FailedLine, queue, failed.sequence)) == Some(FailedV(failed))
              && failed.queue == queue && failed.journey == journey
              && failed.sequence < NextOf(db, FailedLine, queue)
  {
    assert LineOk(db, FailedLine, queue);
  }

  /** A queue reads as it did where none of its records changed. */
  lemma SameReads(db: Db, after: Db, queue: Id, journey: Id)
    ensures SameLine(db, after, HeldLine, queue) ==>
              HeldOf(after, queue, journey) == HeldOf(db, queue, journey)
              && NextOf(after, HeldLine, queue) == NextOf(db, HeldLine, queue)
    ensures SameLine(db, after, FailedLine, queue) ==>
              FailedOf(after, queue, journey) == FailedOf(db, queue, journey)
              && NextOf(after, FailedLine, queue) == NextOf(db, FailedLine, queue)
  {
    if SameLine(db, after, HeldLine, queue) {
      assert Read(db, By(HeldLine, queue, journey)) == Read(after, By(HeldLine, queue, journey));
      assert Read(db, PlacesAt(HeldLine, queue)) == Read(after, PlacesAt(HeldLine, queue));
      if By(HeldLine, queue, journey) in db && db[By(HeldLine, queue, journey)].PlaceV? {
        var entry := Entry(HeldLine, queue, db[By(HeldLine, queue, journey)].place);
        assert Read(db, entry) == Read(after, entry);
      }
    }
    if SameLine(db, after, FailedLine, queue) {
      assert Read(db, By(FailedLine, queue, journey)) == Read(after, By(FailedLine, queue, journey));
      assert Read(db, PlacesAt(FailedLine, queue)) == Read(after, PlacesAt(FailedLine, queue));
      if By(FailedLine, queue, journey) in db && db[By(FailedLine, queue, journey)].PlaceV? {
        var entry := Entry(FailedLine, queue, db[By(FailedLine, queue, journey)].place);
        assert Read(db, entry) == Read(after, entry);
      }
    }
  }

  /** All a queue and its index of failed Messages say of one Message. */
  datatype Spot = Spot(held: Option<Held>, next: nat, failed: Option<FailedEntry>, failedNext: nat)

  function SpotOf(db: Db, queue: Id, journey: Id): Spot {
    Spot(HeldOf(db, queue, journey), NextOf(db, HeldLine, queue),
         FailedOf(db, queue, journey), NextOf(db, FailedLine, queue))
  }

  /** What a queue says of one Message where a step came to an orderly database. */
  ghost function Landed(result: Result<Db>, queue: Id, journey: Id): Option<Spot> {
    if result.Ok? && Sound(result.value) then Some(SpotOf(result.value, queue, journey)) else None
  }

  /** Came to an orderly database where `journey` waits in `queue` and failed there so. */
  ghost predicate CameTo(result: Result<Db>, queue: Id, journey: Id,
                         held: Option<Held>, next: nat, failed: Option<FailedEntry>, failedNext: nat) {
    Landed(result, queue, journey) == Some(Spot(held, next, failed, failedNext))
  }

  lemma KeepSpots(db: Db, hold: Hold, queue: Id, journey: Id)
    requires Sound(db)
    ensures var was := HeldOf(db, queue, journey); var next := NextOf(db, HeldLine, queue);
            CameTo(Holds.Keep(db, hold), queue, journey,
                   HeldAfter(Join(hold), queue, journey, was, next),
                   if hold.queue == queue && HeldOf(db, queue, hold.journey).None? then next + 1 else next,
                   FailedOf(db, queue, journey), NextOf(db, FailedLine, queue))
  {
    PlaceSound(db, HeldLine, hold.queue, hold.journey, FreshHeld(hold));
    var after := Holds.Keep(db, hold).value;
    HeldIsPlaced(db, hold.queue, hold.journey);
    assert SameLine(db, after, FailedLine, queue);
    SameReads(db, after, queue, journey);
    if hold.queue == queue {
      HeldIsPlaced(db, queue, journey);
    } else {
      assert SameLine(db, after, HeldLine, queue);
    }
  }

  /** Taken out of its place, and forgotten. */
  lemma OutSpots(db: Db, q: Id, j: Id, queue: Id, journey: Id)
    requires Sound(db) && HeldOf(db, q, j).Some?
    requires Entry(HeldLine, q, HeldOf(db, q, j).value.sequence) in db
    ensures var out := TakenFrom(db, HeldLine, q, HeldOf(db, q, j).value.sequence, None);
            && By(HeldLine, q, j) !in out
            && CameTo(Ok(out), queue, journey,
                      if q == queue && j == journey then None else HeldOf(db, queue, journey),
                      NextOf(db, HeldLine, queue), FailedOf(db, queue, journey), NextOf(db, FailedLine, queue))
  {
    HeldIsPlaced(db, q, j);
    var place := HeldOf(db, q, j).value.sequence;
    TakeOutSound(db, HeldLine, q, place, None);
    var out := TakenFrom(db, HeldLine, q, place, None);
    assert SameLine(db, out, FailedLine, queue);
    SameReads(db, out, queue, journey);
    if q == queue {
      HeldIsPlaced(db, queue, journey);
      if j != journey && HeldOf(db, queue, journey).Some? {
        assert HeldOf(db, queue, journey).value.sequence != place;
      }
    } else {
      assert SameLine(db, out, HeldLine, queue);
    }
  }

  lemma LeaveSpots(db: Db, q: Id, j: Id, queue: Id, journey: Id)
    requires Sound(db)
    ensures CameTo(LetGoOf(db, q, j), queue, journey,
                   HeldAfter(Leave(q, j), queue, journey, HeldOf(db, queue, journey), 0),
                   NextOf(db, HeldLine, queue), FailedOf(db, queue, journey), NextOf(db, FailedLine, queue))
  {
    HeldIsPlaced(db, q, j);
    if HeldOf(db, q, j).Some? {
      OutSpots(db, q, j, queue, journey);
    }
  }

  lemma EndSpots(db: Db, q: Id, j: Id, queue: Id, journey: Id)
    requires Sound(db)
    ensures var next := NextOf(db, HeldLine, queue);
            CameTo(ToTheEnd(db, q, j), queue, journey,
                   HeldAfter(MoveToEnd(q, j), queue, journey, HeldOf(db, queue, journey), next),
                   if q == queue && HeldOf(db, queue, j).Some? then next + 1 else next,
                   FailedOf(db, queue, journey), NextOf(db, FailedLine, queue))
  {
    HeldIsPlaced(db, q, j);
    if HeldOf(db, q, j).Some? {
      OutSpots(db, q, j, queue, journey);
      OutSpots(db, q, j, queue, j);
      var held := HeldOf(db, q, j).value;
      var out := TakenFrom(db, HeldLine, q, held.sequence, None);
      TakeOutTyped(db, HeldLine, q, held.sequence);
      KeepSpots(out, held.hold, queue, journey);
    }
  }

  /** An entry of a queue kept where it is, otherwise marked or due. */
  lemma UpdateSpots(db: Db, q: Id, j: Id, held: Held, queue: Id, journey: Id)
    requires Sound(db) && HeldOf(db, q, j).Some?
    requires held.sequence == HeldOf(db, q, j).value.sequence && held.hold == HeldOf(db, q, j).value.hold
    ensures CameTo(Ok(db[Entry(HeldLine, q, held.sequence) := HeldV(held)]), queue, journey,
                   if q == queue && j == journey then Some(held) else HeldOf(db, queue, journey),
                   NextOf(db, HeldLine, queue), FailedOf(db, queue, journey), NextOf(db, FailedLine, queue))
  {
    HeldIsPlaced(db, q, j);
    UpdateSound(db, q, held.sequence, held);
    var after := db[Entry(HeldLine, q, held.sequence) := HeldV(held)];
    assert SameLine(db, after, FailedLine, queue);
    SameReads(db, after, queue, journey);
    if q == queue {
      HeldIsPlaced(db, queue, journey);
    } else {
      assert SameLine(db, after, HeldLine, queue);
    }
  }

  lemma DeferSpots(db: Db, q: Id, j: Id, due: int, queue: Id, journey: Id)
    requires Sound(db)
    ensures CameTo(Wait(db, q, j, due), queue, journey,
                   HeldAfter(Defer(q, j, due), queue, journey, HeldOf(db, queue, journey), 0),
                   NextOf(db, HeldLine, queue), FailedOf(db, queue, journey), NextOf(db, FailedLine, queue))
  {
    HeldIsPlaced(db, q, j);
    if HeldOf(db, q, j).Some? {
      UpdateSpots(db, q, j, HeldOf(db, q, j).value.(due := Some(due)), queue, journey);
    }
  }

  lemma MarkSpots(db: Db, q: Id, j: Id, failed: bool, queue: Id, journey: Id)
    requires Sound(db) && HeldOf(db, q, j).Some?
    ensures var was := HeldOf(db, queue, journey);
            CameTo(Mark(db, q, HeldOf(db, q, j).value.sequence, failed), queue, journey,
                   if q == queue && j == journey && was.value.failed != failed then Some(Marked(was.value, failed)) else was,
                   NextOf(db, HeldLine, queue), FailedOf(db, queue, journey), NextOf(db, FailedLine, queue))
  {
    HeldIsPlaced(db, q, j);
    var held := HeldOf(db, q, j).value;
    if held.failed != failed {
      UpdateSpots(db, q, j, Marked(held, failed), queue, journey);
    }
  }

  lemma IndexSpots(db: Db, failure: Failure, j: Id, place: nat, at: int, queue: Id, journey: Id)
    requires Sound(db)
    ensures var made := FreshFailed(j, place, failure.reason, at); var next := NextOf(db, FailedLine, queue);
            var entered := failure.queue == queue && FailedOf(db, queue, j).None?;
            CameTo(Queues.Place(db, FailedLine, failure.queue, j, made), queue, journey,
                   HeldOf(db, queue, journey), NextOf(db, HeldLine, queue),
                   if entered && j == journey then Some(FailedEntry(queue, next, j, place, failure.reason, at))
                   else FailedOf(db, queue, journey),
                   if entered then next + 1 else next)
  {
    var made := FreshFailed(j, place, failure.reason, at);
    PlaceSound(db, FailedLine, failure.queue, j, made);
    var after := Queues.Place(db, FailedLine, failure.queue, j, made).value;
    FailedIsPlaced(db, failure.queue, j);
    assert SameLine(db, after, HeldLine, queue);
    SameReads(db, after, queue, journey);
    if failure.queue == queue {
      FailedIsPlaced(db, queue, journey);
    } else {
      assert SameLine(db, after, FailedLine, queue);
    }
  }

  lemma FailSpots(db: Db, j: Id, failure: Failure, at: int, queue: Id, journey: Id)
    requires Sound(db)
    ensures var step := Fail(j, failure, at); var held := HeldOf(db, queue, journey);
            var next := NextOf(db, FailedLine, queue);
            CameTo(Enter(db, j, failure, at), queue, journey,
                   HeldAfter(step, queue, journey, held, 0), NextOf(db, HeldLine, queue),
                   FailedAfter(step, queue, journey, held, FailedOf(db, queue, journey), next),
                   if failure.queue == queue && HeldOf(db, queue, j).Some? && FailedOf(db, queue, j).None? then next + 1
                   else next)
  {
    HeldIsPlaced(db, failure.queue, j);
    if HeldOf(db, failure.queue, j).Some? {
      var place := HeldOf(db, failure.queue, j).value.sequence;
      MarkSpots(db, failure.queue, j, true, queue, journey);
      MarkSpots(db, failure.queue, j, true, queue, j);
      IndexSpots(Mark(db, failure.queue, place, true).value, failure, j, place, at, queue, journey);
    }
  }

  lemma UnindexSpots(db: Db, q: Id, j: Id, queue: Id, journey: Id)
    requires Sound(db)
    ensures CameTo(Unindexed(db, q, j), queue, journey,
                   HeldOf(db, queue, journey), NextOf(db, HeldLine, queue),
                   FailedAfter(Unfail(q, j), queue, journey, None, FailedOf(db, queue, journey), 0),
                   NextOf(db, FailedLine, queue))
  {
    FailedIsPlaced(db, q, j);
    if FailedOf(db, q, j).Some? {
      var place := FailedOf(db, q, j).value.sequence;
      TakeOutSound(db, FailedLine, q, place, None);
      TakeOutTyped(db, FailedLine, q, place);
      var out := TakenFrom(db, FailedLine, q, place, None);
      assert SameLine(db, out, HeldLine, queue);
      SameReads(db, out, queue, journey);
      if q == queue {
        FailedIsPlaced(db, queue, journey);
        if j != journey && FailedOf(db, queue, journey).Some? {
          assert FailedOf(db, queue, journey).value.sequence != place;
        }
      } else {
        assert SameLine(db, out, FailedLine, queue);
      }
    }
  }

  lemma UnfailSpots(db: Db, q: Id, j: Id, queue: Id, journey: Id)
    requires Sound(db)
    ensures var step := Unfail(q, j); var held := HeldOf(db, queue, journey);
            CameTo(Clear(db, q, j), queue, journey,
                   HeldAfter(step, queue, journey, held, 0), NextOf(db, HeldLine, queue),
                   FailedAfter(step, queue, journey, held, FailedOf(db, queue, journey), 0),
                   NextOf(db, FailedLine, queue))
  {
    UnindexSpots(db, q, j, queue, journey);
    UnindexSpots(db, q, j, q, j);
    var out := Unindexed(db, q, j).value;
    HeldIsPlaced(out, q, j);
    if HeldOf(out, q, j).Some? {
      MarkSpots(out, q, j, false, queue, journey);
    }
  }

  // ---- The places a holder's last Journey lets go of. ----

  /** Counted for its holder `journey`, a record leaves none of its Journeys open, and lets go of
      the place it holds in `queue`. */
  predicate RoleReleases(db: Db, was: bool, holder: Option<Id>, opens: bool, places: seq<Hold>, queue: Id, journey: Id) {
    && holder == Some(journey) && (was != opens || Origins.Takes(places, journey))
    && match Origins.OriginAt(db, journey)
       case Ok(origin) =>
         && Origins.Moved(origin.open, if was != opens then Some(opens) else None) == 0
         && queue in Origins.WithQueues(origin.queues, places, journey)
       case Err(_) => false
  }

  /** So of either holder it counts toward. */
  predicate CountReleases(db: Db, record: JourneyRecord, places: seq<Hold>, queue: Id, journey: Id) {
    match Origins.JourneyOf(db, record.journey)
    case Err(_) => false
    case Ok(before) =>
      || RoleReleases(db, Origins.WasOrigin(before, record), record.origin, record.open, places, queue, journey)
      || match Origins.CountRole(db, Origins.WasOrigin(before, record), record.origin, record.open, places)
         case Ok(first) =>
           RoleReleases(first, Origins.WasGroup(before, record), record.groupDelivery, record.groupOpen, places, queue, journey)
         case Err(_) => false
  }

  lemma {:induction false} ReleaseSpots(db: Db, queues: seq<Id>, holder: Id, queue: Id, journey: Id)
    requires Sound(db)
    ensures var after := Origins.ReleaseAll(db, queues, holder);
            CameTo(after, queue, journey,
                   if journey == holder && queue in queues then None else HeldOf(db, queue, journey),
                   NextOf(db, HeldLine, queue), FailedOf(db, queue, journey), NextOf(db, FailedLine, queue))
    decreases |queues|
  {
    if queues != [] {
      LeaveSpots(db, queues[0], holder, queue, journey);
      ReleaseSpots(LetGoOf(db, queues[0], holder).value, queues[1..], holder, queue, journey);
      assert queue in queues <==> queue == queues[0] || queue in queues[1..];
    }
  }

  /** Only a record that is of no queue changed. */
  lemma BesideSpots(db: Db, after: Db, queue: Id, journey: Id)
    requires Sound(db) && Typed(after)
    requires forall key: Key | key.Entry? || key.By? || key.PlacesAt? :: Read(db, key) == Read(after, key)
    ensures CameTo(Ok(after), queue, journey, HeldOf(db, queue, journey), NextOf(db, HeldLine, queue),
                   FailedOf(db, queue, journey), NextOf(db, FailedLine, queue))
  {
    SoundBeside(db, after);
    assert SameLine(db, after, HeldLine, queue) && SameLine(db, after, FailedLine, queue);
    SameReads(db, after, queue, journey);
  }

  lemma CountRoleSpots(db: Db, was: bool, holder: Option<Id>, opens: bool, places: seq<Hold>, queue: Id, journey: Id)
    requires Sound(db)
    ensures var result := Origins.CountRole(db, was, holder, opens, places);
            && result.Ok? && Sound(result.value)
            && CameTo(result, queue, journey,
                      if RoleReleases(db, was, holder, opens, places, queue, journey) then None else HeldOf(db, queue, journey),
                      NextOf(db, HeldLine, queue), FailedOf(db, queue, journey), NextOf(db, FailedLine, queue))
  {
    CountRoleTyped(db, was, holder, opens, places);
    if holder.Some? && (was != opens || Origins.Takes(places, holder.value)) {
      var origin := Origins.OriginAt(db, holder.value).value;
      var queues := Origins.WithQueues(origin.queues, places, holder.value);
      var moved := if was != opens then Some(opens) else None;
      var after := Origins.CountRole(db, was, holder, opens, places).value;
      if Origins.Moved(origin.open, moved) == 0 {
        ReleaseSpots(db, queues, holder.value, queue, journey);
        BesideSpots(Origins.ReleaseAll(db, queues, holder.value).value, after, queue, journey);
      } else {
        BesideSpots(db, after, queue, journey);
      }
    }
  }

  lemma CountSpots(db: Db, record: JourneyRecord, places: seq<Hold>, queue: Id, journey: Id)
    requires Sound(db)
    ensures var result := Origins.Counted(db, record, places);
            && result.Ok? && Sound(result.value)
            && CameTo(result, queue, journey,
                      if CountReleases(db, record, places, queue, journey) then None else HeldOf(db, queue, journey),
                      NextOf(db, HeldLine, queue), FailedOf(db, queue, journey), NextOf(db, FailedLine, queue))
  {
    var before := Origins.JourneyOf(db, record.journey).value;
    CountRoleSpots(db, Origins.WasOrigin(before, record), record.origin, record.open, places, queue, journey);
    var first := Origins.CountRole(db, Origins.WasOrigin(before, record), record.origin, record.open, places).value;
    CountRoleSpots(first, Origins.WasGroup(before, record), record.groupDelivery, record.groupOpen, places, queue, journey);
  }
}
