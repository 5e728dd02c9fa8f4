/** Each queue a batch wrote a held Message of, its firsts found again as the batch leaves it
    (`due.rs`, `settle`). */
module Settling {
  import opened Wrappers
  import opened Records
  import opened Batches
  import opened Queues
  import opened Shapes
  import opened Lines
  import Due

  /** Where each queue's firsts are, as kept in their own place; what cannot be read fails. */
  type Cells = map<Id, Result<Due.DuePlaces>>

  function CellOf(cells: Cells, queue: Id): Result<Due.DuePlaces> {
    if queue in cells then cells[queue] else Ok(Due.UNKEPT)
  }

  function HeldIn(value: Option<Value>): Option<Held> {
    match value
    case Some(HeldV(held)) => Some(held)
    case _ => None
  }

  /** What a queue holds, entry by entry. */
  function EntriesOf(db: Db, queue: Id): Due.Entries {
    map p | p in PlacesIn(db.Keys, HeldLine, queue) && HeldIn(Read(db, Entry(HeldLine, queue, p))).Some? ::
      HeldIn(Read(db, Entry(HeldLine, queue, p))).value
  }

  function Left(written: map<Key, Option<Value>>, key: Key): Option<Value> {
    if key in written then written[key] else None
  }

  /** What a batch left at each place of `queue` it wrote. */
  function WritesOf(written: map<Key, Option<Value>>, queue: Id): Due.Writes {
    map p | p in PlacesIn(written.Keys, HeldLine, queue) :: HeldIn(Left(written, Entry(HeldLine, queue, p)))
  }

  /** What the store held at the places written reads as held Messages, and so does what the
      batch left there. */
  predicate Reads(store: Db, written: map<Key, Option<Value>>, queue: Id) {
    forall p | p in PlacesIn(written.Keys, HeldLine, queue) ::
      && (Entry(HeldLine, queue, p) in store ==> store[Entry(HeldLine, queue, p)].HeldV?)
      && (Left(written, Entry(HeldLine, queue, p)).Some? ==> Left(written, Entry(HeldLine, queue, p)).value.HeldV?)
  }

  lemma EntriesAfter(store: Db, written: map<Key, Option<Value>>, queue: Id)
    ensures EntriesOf(Overlay(store, written), queue) == Due.Wrote(EntriesOf(store, queue), WritesOf(written, queue))
  {
    var view := Overlay(store, written);
    forall p
      ensures p in EntriesOf(view, queue) <==> p in Due.Wrote(EntriesOf(store, queue), WritesOf(written, queue))
      ensures p in EntriesOf(view, queue) ==>
                EntriesOf(view, queue)[p] == Due.Wrote(EntriesOf(store, queue), WritesOf(written, queue))[p]
    {
      InPlaces(store.Keys, HeldLine, queue, p);
      InPlaces(written.Keys, HeldLine, queue, p);
      InPlaces(view.Keys, HeldLine, queue, p);
    }
  }

  lemma TypedReads(store: Db, written: map<Key, Option<Value>>, queue: Id)
    requires Typed(store) && Typed(Overlay(store, written))
    ensures Reads(store, written, queue)
  {
    forall p | p in PlacesIn(written.Keys, HeldLine, queue)
      ensures Left(written, Entry(HeldLine, queue, p)).Some? ==> Left(written, Entry(HeldLine, queue, p)).value.HeldV?
    {
      InPlaces(written.Keys, HeldLine, queue, p);
      var key := Entry(HeldLine, queue, p);
      if written[key].Some? {
        assert key in Overlay(store, written);
      }
    }
  }

  /** No queue has had as many entries as a place counts. */
  ghost predicate InWidth(db: Db) {
    forall key | key in db :: key.Entry? ==> key.place < U64_MAX
  }

  lemma EntriesInWidth(db: Db, queue: Id)
    requires InWidth(db)
    ensures Due.InWidth(EntriesOf(db, queue))
  {
    forall p | p in EntriesOf(db, queue) ensures p < U64_MAX {
      InPlaces(db.Keys, HeldLine, queue, p);
    }
  }

  method SettleQueue(batch: Batch, cells: Cells, queue: Id) returns (after: Result<Due.DuePlaces>)
    requires batch.Valid() && batch.below == null && InWidth(batch.store)
    requires CellOf(cells, queue).Ok? ==> Due.Exact(EntriesOf(batch.store, queue), CellOf(cells, queue).value)
    ensures after.Ok? ==> Due.Exact(EntriesOf(batch.View(), queue), after.value)
    ensures after.Ok? ==> CellOf(cells, queue).Ok?
    ensures CellOf(cells, queue).Ok? && Typed(batch.store) && Typed(batch.View()) ==> after.Ok?
  {
    var before :- CellOf(cells, queue);
    if !Reads(batch.store, batch.written, queue) {
      if Typed(batch.store) && Typed(batch.View()) {
        TypedReads(batch.store, batch.written, queue);
      }
      return Err(Malformed);
    }
    Due.ExactIsNotPast(EntriesOf(batch.store, queue), before);
    EntriesInWidth(batch.store, queue);
    EntriesAfter(batch.store, batch.written, queue);
    var places := ReadPlaces(batch, HeldLine, queue);
    after := Due.Settle(EntriesOf(batch.store, queue), WritesOf(batch.written, queue), before, places);
    if after.Ok? {
      Due.SettledIsExact(EntriesOf(batch.View(), queue), if places.Ok? then places.value.next else 0, after.value);
    }
  }

  /** Each readable cell names its queue's true firsts. */
  ghost predicate CellsExact(db: Db, cells: Cells) {
    forall queue | CellOf(cells, queue).Ok? :: Due.Exact(EntriesOf(db, queue), CellOf(cells, queue).value)
  }

  ghost predicate Readable(cells: Cells, queues: set<Id>) {
    forall queue | queue in queues :: CellOf(cells, queue).Ok?
  }

  ghost predicate ExactFor(db: Db, cells: Cells, queues: set<Id>) {
    forall queue | queue in queues ::
      CellOf(cells, queue).Ok? && Due.Exact(EntriesOf(db, queue), CellOf(cells, queue).value)
  }

  lemma UntouchedSame(batch: Batch, queue: Id)
    requires batch.Valid() && batch.below == null && queue !in batch.Touches()
    ensures EntriesOf(batch.View(), queue) == EntriesOf(batch.store, queue)
  {
    forall p ensures p !in PlacesIn(batch.written.Keys, HeldLine, queue) {
      InPlaces(batch.written.Keys, HeldLine, queue, p);
    }
    EntriesAfter(batch.store, batch.written, queue);
    assert WritesOf(batch.written, queue) == map[];
  }

  /** Every queue the batch touched settled, or none where one cannot be. */
  method SettleAll(batch: Batch, cells: Cells) returns (after: Result<Cells>)
    requires batch.Valid() && batch.below == null && InWidth(batch.store) && CellsExact(batch.store, cells)
    ensures after.Ok? ==> CellsExact(batch.View(), after.value)
    ensures after.Ok? ==> forall queue :: CellOf(after.value, queue).Ok? == CellOf(cells, queue).Ok?
    ensures after.Ok? ==> Readable(cells, batch.Touches())
    ensures Typed(batch.store) && Typed(batch.View()) && Readable(cells, batch.Touches()) ==> after.Ok?
  {
    hide Typed, Overlay, EntriesOf, Due.Exact, Touched;
    var settled := cells;
    var touched := Touched(batch.written.Keys);
    var left := touched;
    while left != {}
      invariant left <= touched
      invariant ExactFor(batch.View(), settled, touched - left)
      invariant Readable(cells, touched - left)
      invariant forall queue | queue !in touched - left :: CellOf(settled, queue) == CellOf(cells, queue)
      decreases |left|
    {
      var queue :| queue in left;
      var cell :- SettleQueue(batch, cells, queue);
      settled := settled[queue := Ok(cell)];
      left := left - {queue};
    }
    forall queue | CellOf(settled, queue).Ok?
      ensures Due.Exact(EntriesOf(batch.View(), queue), CellOf(settled, queue).value)
    {
      if queue !in touched {
        UntouchedSame(batch, queue);
      }
    }
    return Ok(settled);
  }
}
