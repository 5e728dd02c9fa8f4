/** A place held for many Messages at once, kept until the last of their Journeys closes
    (`origin.rs`): counted in the write that writes each Journey. */
module Origins {
  import opened Wrappers
  import opened Records
  import opened Batches
  import opened Queues
  import opened Holds

  function JourneyOf(db: Db, journey: Id): Result<Option<JourneyRecord>> {
    match Read(db, JourneyAt(journey))
    case None => Ok(None)
    case Some(JourneyV(record)) => Ok(Some(record))
    case Some(_) => Err(Malformed)
  }

  function OriginAt(db: Db, holder: Id): Result<Origin> {
    match Read(db, OriginOf(holder))
    case None => Ok(Origin(0, []))
    case Some(OriginV(origin)) => Ok(origin)
    case Some(_) => Err(Malformed)
  }

  /** The queues `places` holds `holder` a place in, kept beside those it has, each once. */
  function WithQueues(queues: seq<Id>, places: seq<Hold>, holder: Id): seq<Id>
    decreases |places|
  {
    if places == [] then queues
    else if places[0].journey == holder && places[0].queue !in queues then
      WithQueues(queues + [places[0].queue], places[1..], holder)
    else WithQueues(queues, places[1..], holder)
  }

  function ReleaseAll(db: Db, queues: seq<Id>, holder: Id): Result<Db>
    decreases |queues|
  {
    if queues == [] then Ok(db)
    else
      var left :- LetGoOf(db, queues[0], holder);
      ReleaseAll(left, queues[1..], holder)
  }

  /** A holder's count once one of its Journeys opened or closed, where one did. */
  function Moved(open: nat, moved: Option<bool>): nat {
    match moved
    case None => open
    case Some(opens) => if opens then open + 1 else if open == 0 then 0 else open - 1
  }

  function CountFor(db: Db, holder: Id, moved: Option<bool>, places: seq<Hold>): Result<Db> {
    var origin :- OriginAt(db, holder);
    var queues := WithQueues(origin.queues, places, holder);
    var open := Moved(origin.open, moved);
    if open == 0 then
      var left :- ReleaseAll(db, queues, holder);
      Ok(left - {OriginOf(holder)})
    else Ok(db[OriginOf(holder) := OriginV(Origin(open, queues))])
  }

  predicate Takes(places: seq<Hold>, holder: Id) {
    exists place | place in places :: place.journey == holder
  }

  /** One of the two holders a record counts toward, `was` saying whether the record it
      replaces kept it open. */
  function CountRole(db: Db, was: bool, holder: Option<Id>, open: bool, places: seq<Hold>): Result<Db> {
    if holder.None? || (was == open && !Takes(places, holder.value)) then Ok(db)
    else CountFor(db, holder.value, if was != open then Some(open) else None, places)
  }

  function WasOrigin(before: Option<JourneyRecord>, record: JourneyRecord): bool {
    before.Some? && before.value.origin == record.origin && before.value.open
  }

  function WasGroup(before: Option<JourneyRecord>, record: JourneyRecord): bool {
    before.Some? && before.value.groupDelivery == record.groupDelivery && before.value.groupOpen
  }

  function Counted(db: Db, record: JourneyRecord, places: seq<Hold>): Result<Db> {
    var before :- JourneyOf(db, record.journey);
    var first :- CountRole(db, WasOrigin(before, record), record.origin, record.open, places);
    CountRole(first, WasGroup(before, record), record.groupDelivery, record.groupOpen, places)
  }

  // ---- The queues whose places counting writes: those a place is let go of in. ----

  function ReleaseTouches(db: Db, queues: seq<Id>, holder: Id): set<Id>
    decreases |queues|
  {
    if queues == [] then {}
    else
      match LetGoOf(db, queues[0], holder)
      case Ok(left) => HeldTouches(db, queues[0], holder) + ReleaseTouches(left, queues[1..], holder)
      case Err(_) => {}
  }

  function CountTouches(db: Db, holder: Id, moved: Option<bool>, places: seq<Hold>): set<Id> {
    match OriginAt(db, holder)
    case Ok(origin) =>
      if Moved(origin.open, moved) != 0 then {} else ReleaseTouches(db, WithQueues(origin.queues, places, holder), holder)
    case Err(_) => {}
  }

  function RoleTouches(db: Db, was: bool, holder: Option<Id>, open: bool, places: seq<Hold>): set<Id> {
    if holder.None? || (was == open && !Takes(places, holder.value)) then {}
    else CountTouches(db, holder.value, if was != open then Some(open) else None, places)
  }

  function RecordTouches(db: Db, record: JourneyRecord, places: seq<Hold>): set<Id> {
    match JourneyOf(db, record.journey)
    case Ok(before) =>
      (match CountRole(db, WasOrigin(before, record), record.origin, record.open, places)
       case Ok(first) =>
         RoleTouches(db, WasOrigin(before, record), record.origin, record.open, places)
         + RoleTouches(first, WasGroup(before, record), record.groupDelivery, record.groupOpen, places)
       case Err(_) => {})
    case Err(_) => {}
  }

  // ---- The operations over a batch. ----

  method QueuesWith(queues: seq<Id>, places: seq<Hold>, holder: Id) returns (all: seq<Id>)
    ensures all == WithQueues(queues, places, holder)
  {
    all := queues;
    for i := 0 to |places|
      invariant WithQueues(queues, places, holder) == WithQueues(all, places[i..], holder)
    {
      assert places[i..][0] == places[i] && places[i..][1..] == places[i + 1..];
      if places[i].journey == holder && places[i].queue !in all {
        all := all + [places[i].queue];
      }
    }
  }

  method CountHolder(batch: Batch, holder: Id, moved: Option<bool>, places: seq<Hold>)
    returns (done: Result<()>)
    requires batch.Valid()
    modifies batch`written
    ensures batch.Valid() && Took(CountFor(old(batch.View()), holder, moved, places), done, batch.View())
    ensures done.Ok? ==>
              batch.Touches() == old(batch.Touches()) + CountTouches(old(batch.View()), holder, moved, places)
  {
    var kept := batch.Get(OriginOf(holder));
    var origin := Origin(0, []);
    match kept {
      case None =>
      case Some(OriginV(found)) => origin := found;
      case Some(_) => return Err(Malformed);
    }
    var queues := QueuesWith(origin.queues, places, holder);
    var open := Moved(origin.open, moved);
    if open == 0 {
      for i := 0 to |queues|
        invariant batch.Valid()
        invariant ReleaseAll(old(batch.View()), queues, holder)
               == ReleaseAll(batch.View(), queues[i..], holder)
        invariant old(batch.Touches()) + ReleaseTouches(old(batch.View()), queues, holder)
               == batch.Touches() + ReleaseTouches(batch.View(), queues[i..], holder)
      {
        assert queues[i..][0] == queues[i] && queues[i..][1..] == queues[i + 1..];
        var _ :- LetGo(batch, queues[i], holder);
      }
      batch.Put(OriginOf(holder), None);
    } else {
      batch.Put(OriginOf(holder), Some(OriginV(Origin(open, queues))));
    }
    return Ok(());
  }

  method CountOne(batch: Batch, was: bool, holder: Option<Id>, open: bool, places: seq<Hold>)
    returns (done: Result<()>)
    requires batch.Valid()
    modifies batch`written
    ensures batch.Valid() && Took(CountRole(old(batch.View()), was, holder, open, places), done, batch.View())
    ensures done.Ok? ==>
              batch.Touches() == old(batch.Touches()) + RoleTouches(old(batch.View()), was, holder, open, places)
  {
    if holder.None? || (was == open && !Takes(places, holder.value)) {
      return Ok(());
    }
    done := CountHolder(batch, holder.value, if was != open then Some(open) else None, places);
  }

  method CountRecord(batch: Batch, record: JourneyRecord, places: seq<Hold>)
    returns (done: Result<()>)
    requires batch.Valid()
    modifies batch`written
    ensures batch.Valid() && Took(Counted(old(batch.View()), record, places), done, batch.View())
    ensures done.Ok? ==> batch.Touches() == old(batch.Touches()) + RecordTouches(old(batch.View()), record, places)
  {
    hide Overlay, Touched, RoleTouches;
    var kept := batch.Get(JourneyAt(record.journey));
    var before: Option<JourneyRecord> := None;
    match kept {
      case None =>
      case Some(JourneyV(found)) => before := Some(found);
      case Some(_) => return Err(Malformed);
    }
    var _ :- CountOne(batch, WasOrigin(before, record), record.origin, record.open, places);
    done := CountOne(batch, WasGroup(before, record), record.groupDelivery, record.groupOpen, places);
  }
}
