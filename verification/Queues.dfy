/** The mechanics every kind of queue is kept by (`queue.rs`): entries numbered as they are
    written, an index from what an entry is about to its place, and the queue's places. */
module Queues {
  import opened Wrappers
  import opened Records
  import opened Batches

  /** What is kept at a place, made from the place it takes. */
  datatype Fresh =
    | FreshHeld(hold: Hold)
    | FreshFailed(journey: Id, place: nat, reason: Body, at: int)
    | FreshDead(message: DeadMessage)

  function EntryOf(made: Fresh, queue: Id, sequence: nat): Value {
    match made
    case FreshHeld(hold) => HeldV(Held(sequence, hold, false, None))
    case FreshFailed(journey, place, reason, at) =>
      FailedV(FailedEntry(queue, sequence, journey, place, reason, at))
    case FreshDead(message) => DeadV(DeadEntry(sequence, message))
  }

  // ---- The specification: each operation as a function of the database. ----

  function PlacesOf(db: Db, kind: Kind, queue: Id): Result<Places> {
    match Read(db, PlacesAt(kind, queue))
    case None => Ok(Places(0, 0, 0))
    case Some(PlacesV(places)) => Ok(places)
    case Some(_) => Err(Malformed)
  }

  function PlacedOf(db: Db, kind: Kind, queue: Id, about: Id): Result<Placed> {
    match Read(db, By(kind, queue, about))
    case None => Ok(Never)
    case Some(TakenOutV) => Ok(Out)
    case Some(PlaceV(place)) => Ok(AtPlace(place))
    case Some(_) => Err(Malformed)
  }

  /** An entry about `about` at the end of `queue`; nothing where its index has it already,
      placed or taken out and remembered so. */
  function Place(db: Db, kind: Kind, queue: Id, about: Id, made: Fresh): Result<Db> {
    if By(kind, queue, about) in db then Ok(db)
    else
      var places :- PlacesOf(db, kind, queue);
      Ok(db[Entry(kind, queue, places.next) := EntryOf(made, queue, places.next)]
           [By(kind, queue, about) := PlaceV(places.next)]
           [PlacesAt(kind, queue) := PlacesV(Places(places.first, places.next + 1, places.count + 1))])
  }

  /** The places of a queue one of whose entries was taken out. */
  function OneFewer(places: Places): Places {
    var count := if places.count == 0 then 0 else places.count - 1;
    Places(if count == 0 then places.next else places.first, places.next, count)
  }

  /** The entry at `place` taken out, and what was kept there; its index is the caller's. */
  function TakeOut(db: Db, kind: Kind, queue: Id, place: nat): Result<(Db, Option<Value>)> {
    match Read(db, Entry(kind, queue, place))
    case None => Ok((db, None))
    case Some(entry) =>
      var out := db - {Entry(kind, queue, place)};
      var places :- PlacesOf(out, kind, queue);
      Ok((out[PlacesAt(kind, queue) := PlacesV(OneFewer(places))], Some(entry)))
  }

  // ---- The queues whose held Messages' places an operation writes. ----

  function HeldOnly(kind: Kind, queue: Id): set<Id> {
    if kind == HeldLine then {queue} else {}
  }

  function PlaceTouches(db: Db, kind: Kind, queue: Id, about: Id): set<Id> {
    if By(kind, queue, about) in db then {} else HeldOnly(kind, queue)
  }

  function OutTouches(db: Db, kind: Kind, queue: Id, place: nat): set<Id> {
    if Entry(kind, queue, place) in db then HeldOnly(kind, queue) else {}
  }

  // ---- The operations as the writer does them, over a batch. ----

  /** A step came to what its specification says: the same database, or the same failure. */
  ghost predicate Took(spec: Result<Db>, done: Result<()>, view: Db) {
    match spec
    case Ok(db) => done.Ok? && view == db
    case Err(error) => done.Err? && done.error == error
  }

  method ReadPlaces(batch: Batch, kind: Kind, queue: Id) returns (places: Result<Places>)
    requires batch.Valid()
    ensures places == PlacesOf(batch.View(), kind, queue)
  {
    var value := batch.Get(PlacesAt(kind, queue));
    match value
    case None => places := Ok(Places(0, 0, 0));
    case Some(PlacesV(kept)) => places := Ok(kept);
    case Some(_) => places := Err(Malformed);
  }

  method ReadPlaced(batch: Batch, kind: Kind, queue: Id, about: Id) returns (placed: Result<Placed>)
    requires batch.Valid()
    ensures placed == PlacedOf(batch.View(), kind, queue, about)
  {
    var value := batch.Get(By(kind, queue, about));
    match value
    case None => placed := Ok(Never);
    case Some(TakenOutV) => placed := Ok(Out);
    case Some(PlaceV(place)) => placed := Ok(AtPlace(place));
    case Some(_) => placed := Err(Malformed);
  }

  method PlaceAtEnd(batch: Batch, kind: Kind, queue: Id, about: Id, made: Fresh)
    returns (done: Result<()>)
    requires batch.Valid()
    modifies batch`written
    ensures batch.Valid()
    ensures Took(Place(old(batch.View()), kind, queue, about, made), done, batch.View())
    ensures done.Ok? ==> batch.Touches() == old(batch.Touches()) + PlaceTouches(old(batch.View()), kind, queue, about)
  {
    hide Overlay, Touched;
    var indexed := batch.Get(By(kind, queue, about));
    if indexed.Some? {
      return Ok(());
    }
    var places :- ReadPlaces(batch, kind, queue);
    batch.Put(Entry(kind, queue, places.next), Some(EntryOf(made, queue, places.next)));
    batch.Put(By(kind, queue, about), Some(PlaceV(places.next)));
    batch.Put(PlacesAt(kind, queue),
              Some(PlacesV(Places(places.first, places.next + 1, places.count + 1))));
    return Ok(());
  }

  method TakeOutEntry(batch: Batch, kind: Kind, queue: Id, place: nat)
    returns (taken: Result<Option<Value>>)
    requires batch.Valid()
    modifies batch`written
    ensures batch.Valid()
    ensures match TakeOut(old(batch.View()), kind, queue, place)
            case Ok((db, entry)) => taken == Ok(entry) && batch.View() == db
            case Err(error) => taken == Err(error)
    ensures taken.Ok? ==> batch.Touches() == old(batch.Touches()) + OutTouches(old(batch.View()), kind, queue, place)
  {
    hide Overlay, Touched;
    var entry := batch.Get(Entry(kind, queue, place));
    if entry.None? {
      return Ok(None);
    }
    batch.Put(Entry(kind, queue, place), None);
    var places :- ReadPlaces(batch, kind, queue);
    var count := places.count;
    if count > 0 {
      count := count - 1;
    }
    var first := places.first;
    if count == 0 {
      // Empty: its first is its next. Otherwise it stays, a place none is held before.
      first := places.next;
    }
    batch.Put(PlacesAt(kind, queue), Some(PlacesV(Places(first, places.next, count))));
    return Ok(entry);
  }

  /** Forgotten: placed again, it takes a new place. */
  method Forget(batch: Batch, kind: Kind, queue: Id, about: Id)
    requires batch.Valid()
    modifies batch`written
    ensures batch.Valid() && batch.View() == old(batch.View()) - {By(kind, queue, about)}
    ensures batch.Touches() == old(batch.Touches())
  {
    batch.Put(By(kind, queue, about), None);
  }

  /** Kept as taken out: placed again, it is not. */
  method Remember(batch: Batch, kind: Kind, queue: Id, about: Id)
    requires batch.Valid()
    modifies batch`written
    ensures batch.Valid() && batch.View() == old(batch.View())[By(kind, queue, about) := TakenOutV]
    ensures batch.Touches() == old(batch.Touches())
  {
    batch.Put(By(kind, queue, about), Some(TakenOutV));
  }
}
