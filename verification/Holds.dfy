/** What waits in a queue (`hold.rs`), and what failed there (`failed.rs`). */
module Holds {
  import opened Wrappers
  import opened Records
  import opened Batches
  import opened Queues

  // ---- The specification. ----

  function AsHeld(value: Value): Result<Held> {
    match value
    case HeldV(held) => Ok(held)
    case _ => Err(Malformed)
  }

  function Keep(db: Db, hold: Hold): Result<Db> {
    Place(db, HeldLine, hold.queue, hold.journey, FreshHeld(hold))
  }

  /** The place `journey` holds in `queue` let go of and forgotten; nothing where it holds none. */
  function LetGoOf(db: Db, queue: Id, journey: Id): Result<Db> {
    var placed :- PlacedOf(db, HeldLine, queue, journey);
    match placed
    case AtPlace(place) =>
      var (out, entry) :- TakeOut(db, HeldLine, queue, place);
      if entry.None? then Ok(out)
      else
        var held :- AsHeld(entry.value);
        Ok(out - {By(HeldLine, queue, held.hold.journey)})
    case _ => Ok(db)
  }

  /** Moved to the end of its queue, keeping what was kept beside it. */
  function ToTheEnd(db: Db, queue: Id, journey: Id): Result<Db> {
    var placed :- PlacedOf(db, HeldLine, queue, journey);
    match placed
    case AtPlace(place) =>
      var (out, entry) :- TakeOut(db, HeldLine, queue, place);
      if entry.None? then Ok(out)
      else
        var held :- AsHeld(entry.value);
        Keep(out - {By(HeldLine, queue, journey)}, held.hold)
    case _ => Ok(db)
  }

  /** Due again at `due`, claimed by nobody. */
  function Wait(db: Db, queue: Id, journey: Id, due: int): Result<Db> {
    var placed :- PlacedOf(db, HeldLine, queue, journey);
    match placed
    case AtPlace(place) =>
      if Entry(HeldLine, queue, place) !in db then Ok(db)
      else
        var held :- AsHeld(db[Entry(HeldLine, queue, place)]);
        Ok(db[Entry(HeldLine, queue, place) := HeldV(held.(due := Some(due)))])
    case _ => Ok(db)
  }

  function Marked(held: Held, failed: bool): Held {
    held.(failed := failed, due := if failed then None else held.due)
  }

  /** Marked failed, or not; marked failed, it waits for no retry. */
  function Mark(db: Db, queue: Id, place: nat, failed: bool): Result<Db> {
    if Entry(HeldLine, queue, place) !in db then Ok(db)
    else
      var held :- AsHeld(db[Entry(HeldLine, queue, place)]);
      if held.failed == failed then Ok(db)
      else Ok(db[Entry(HeldLine, queue, place) := HeldV(Marked(held, failed))])
  }

  /** Entered at the end of its queue's index of failed Messages, its place marked. */
  function Enter(db: Db, journey: Id, failure: Failure, now: int): Result<Db> {
    var placed :- PlacedOf(db, HeldLine, failure.queue, journey);
    match placed
    case AtPlace(place) =>
      var marked :- Mark(db, failure.queue, place, true);
      Place(marked, FailedLine, failure.queue, journey,
            FreshFailed(journey, place, failure.reason, now))
    case _ => Ok(db)
  }

  /** Out of its queue's index of failed Messages, the entry at `entered`. */
  function Unindexed(db: Db, queue: Id, journey: Id): Result<Db> {
    var entered :- PlacedOf(db, FailedLine, queue, journey);
    match entered
    case AtPlace(place) =>
      var (out, _) :- TakeOut(db, FailedLine, queue, place);
      Ok(out - {By(FailedLine, queue, journey)})
    case _ => Ok(db)
  }

  /** Out of its queue's index of failed Messages, its place no longer marked. */
  function Clear(db: Db, queue: Id, journey: Id): Result<Db> {
    var out :- Unindexed(db, queue, journey);
    var placed :- PlacedOf(out, HeldLine, queue, journey);
    match placed
    case AtPlace(place) => Mark(out, queue, place, false)
    case _ => Ok(out)
  }

  // ---- The queues whose places they write. ----

  /** `queue`, where `journey` holds a place in it. */
  function HeldTouches(db: Db, queue: Id, journey: Id): set<Id> {
    match PlacedOf(db, HeldLine, queue, journey)
    case Ok(AtPlace(place)) => OutTouches(db, HeldLine, queue, place)
    case _ => {}
  }

  /** And the queue of the hold that is kept again. */
  function EndTouches(db: Db, queue: Id, journey: Id): set<Id> {
    match PlacedOf(db, HeldLine, queue, journey)
    case Ok(AtPlace(place)) =>
      (match TakeOut(db, HeldLine, queue, place)
       case Ok((out, Some(HeldV(held)))) =>
         {queue} + PlaceTouches(out - {By(HeldLine, queue, journey)}, HeldLine, held.hold.queue, held.hold.journey)
       case _ => {})
    case _ => {}
  }

  function MarkTouches(db: Db, queue: Id, place: nat, failed: bool): set<Id> {
    match Read(db, Entry(HeldLine, queue, place))
    case Some(HeldV(held)) => if held.failed != failed then {queue} else {}
    case _ => {}
  }

  function EnterTouches(db: Db, journey: Id, queue: Id): set<Id> {
    match PlacedOf(db, HeldLine, queue, journey)
    case Ok(AtPlace(place)) => MarkTouches(db, queue, place, true)
    case _ => {}
  }

  function ClearTouches(db: Db, queue: Id, journey: Id): set<Id> {
    match Unindexed(db, queue, journey)
    case Ok(out) =>
      (match PlacedOf(out, HeldLine, queue, journey)
       case Ok(AtPlace(place)) => MarkTouches(out, queue, place, false)
       case _ => {})
    case Err(_) => {}
  }

  // ---- The operations over a batch. ----

  method KeepHold(batch: Batch, hold: Hold) returns (done: Result<()>)
    requires batch.Valid()
    modifies batch`written
    ensures batch.Valid() && Took(Keep(old(batch.View()), hold), done, batch.View())
    ensures done.Ok? ==>
              batch.Touches() == old(batch.Touches())
                 + PlaceTouches(old(batch.View()), HeldLine, hold.queue, hold.journey)
  {
    done := PlaceAtEnd(batch, HeldLine, hold.queue, hold.journey, FreshHeld(hold));
  }

  method LetGo(batch: Batch, queue: Id, journey: Id) returns (done: Result<()>)
    requires batch.Valid()
    modifies batch`written
    ensures batch.Valid() && Took(LetGoOf(old(batch.View()), queue, journey), done, batch.View())
    ensures done.Ok? ==> batch.Touches() == old(batch.Touches()) + HeldTouches(old(batch.View()), queue, journey)
  {
    var placed :- ReadPlaced(batch, HeldLine, queue, journey);
    match placed {
      case AtPlace(place) =>
        var entry :- TakeOutEntry(batch, HeldLine, queue, place);
        if entry.Some? {
          var held :- AsHeld(entry.value);
          Forget(batch, HeldLine, queue, held.hold.journey);
        }
      case _ =>
    }
    return Ok(());
  }

  method MoveToTheEnd(batch: Batch, queue: Id, journey: Id) returns (done: Result<()>)
    requires batch.Valid()
    modifies batch`written
    ensures batch.Valid() && Took(ToTheEnd(old(batch.View()), queue, journey), done, batch.View())
    ensures done.Ok? ==> batch.Touches() == old(batch.Touches()) + EndTouches(old(batch.View()), queue, journey)
  {
    var placed :- ReadPlaced(batch, HeldLine, queue, journey);
    match placed {
      case AtPlace(place) =>
        var entry :- TakeOutEntry(batch, HeldLine, queue, place);
        if entry.Some? {
          var held :- AsHeld(entry.value);
          Forget(batch, HeldLine, queue, journey);
          done := KeepHold(batch, held.hold);
          return done;
        }
      case _ =>
    }
    return Ok(());
  }

  method WaitUntil(batch: Batch, queue: Id, journey: Id, due: int) returns (done: Result<()>)
    requires batch.Valid()
    modifies batch`written
    ensures batch.Valid() && Took(Wait(old(batch.View()), queue, journey, due), done, batch.View())
    ensures done.Ok? ==> batch.Touches() == old(batch.Touches()) + HeldTouches(old(batch.View()), queue, journey)
  {
    var placed :- ReadPlaced(batch, HeldLine, queue, journey);
    match placed {
      case AtPlace(place) =>
        var entry := batch.Get(Entry(HeldLine, queue, place));
        if entry.Some? {
          var held :- AsHeld(entry.value);
          batch.Put(Entry(HeldLine, queue, place), Some(HeldV(held.(due := Some(due)))));
        }
      case _ =>
    }
    return Ok(());
  }

  method MarkPlace(batch: Batch, queue: Id, place: nat, failed: bool) returns (done: Result<()>)
    requires batch.Valid()
    modifies batch`written
    ensures batch.Valid() && Took(Mark(old(batch.View()), queue, place, failed), done, batch.View())
    ensures done.Ok? ==>
              batch.Touches() == old(batch.Touches()) + MarkTouches(old(batch.View()), queue, place, failed)
  {
    var entry := batch.Get(Entry(HeldLine, queue, place));
    if entry.Some? {
      var held :- AsHeld(entry.value);
      if held.failed != failed {
        held := held.(failed := failed);
        if failed {
          held := held.(due := None);
        }
        batch.Put(Entry(HeldLine, queue, place), Some(HeldV(held)));
      }
    }
    return Ok(());
  }

  method EnterFailed(batch: Batch, journey: Id, failure: Failure, now: int)
    returns (done: Result<()>)
    requires batch.Valid()
    modifies batch`written
    ensures batch.Valid() && Took(Enter(old(batch.View()), journey, failure, now), done, batch.View())
    ensures done.Ok? ==>
              batch.Touches() == old(batch.Touches()) + EnterTouches(old(batch.View()), journey, failure.queue)
  {
    var placed :- ReadPlaced(batch, HeldLine, failure.queue, journey);
    match placed {
      case AtPlace(place) =>
        var _ :- MarkPlace(batch, failure.queue, place, true);
        done := PlaceAtEnd(batch, FailedLine, failure.queue, journey,
                           FreshFailed(journey, place, failure.reason, now));
        return done;
      case _ =>
    }
    return Ok(());
  }

  method ClearFailed(batch: Batch, queue: Id, journey: Id) returns (done: Result<()>)
    requires batch.Valid()
    modifies batch`written
    ensures batch.Valid() && Took(Clear(old(batch.View()), queue, journey), done, batch.View())
    ensures done.Ok? ==> batch.Touches() == old(batch.Touches()) + ClearTouches(old(batch.View()), queue, journey)
  {
    var entered :- ReadPlaced(batch, FailedLine, queue, journey);
    match entered {
      case AtPlace(place) =>
        var _ :- TakeOutEntry(batch, FailedLine, queue, place);
        Forget(batch, FailedLine, queue, journey);
      case _ =>
    }
    var placed :- ReadPlaced(batch, HeldLine, queue, journey);
    match placed {
      case AtPlace(place) =>
        done := MarkPlace(batch, queue, place, false);
        return done;
      case _ =>
    }
    return Ok(());
  }
}
