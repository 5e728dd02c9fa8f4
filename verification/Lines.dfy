/** What a queue's records are to one another: each entry at its own place, found there by what
    it is about, and the queue's places counting them. */
module Lines {
  import opened Wrappers
  import opened Records
  import opened Queues
  import opened Holds
  import opened Shapes

  function AboutOf(value: Value): Id {
    match value
    case HeldV(held) => held.hold.journey
    case FailedV(failed) => failed.journey
    case DeadV(dead) => dead.message.message
    case _ => 0
  }

  /** It says itself where it is kept. */
  predicate Numbered(value: Value, queue: Id, place: nat) {
    match value
    case HeldV(held) => held.sequence == place && held.hold.queue == queue
    case FailedV(failed) => failed.sequence == place && failed.queue == queue
    case DeadV(dead) => dead.sequence == place && dead.message.queue == queue
    case _ => false
  }

  /** The places of a queue that `keys` name. */
  function PlacesIn(keys: set<Key>, kind: Kind, queue: Id): set<nat> {
    set k | k in keys && k.Entry? && k.kind == kind && k.queue == queue :: k.place
  }

  lemma InPlaces(keys: set<Key>, kind: Kind, queue: Id, place: nat)
    ensures place in PlacesIn(keys, kind, queue) <==> Entry(kind, queue, place) in keys
  {
    if Entry(kind, queue, place) in keys {
      var k := Entry(kind, queue, place);
      assert k in keys && k.kind == kind && k.queue == queue;
    }
  }

  predicate InLine(key: Key, kind: Kind, queue: Id) {
    match key
    case Entry(k, q, _) => k == kind && q == queue
    case By(k, q, _) => k == kind && q == queue
    case PlacesAt(k, q) => k == kind && q == queue
    case _ => false
  }

  /** An entry at each place indexed there, and one indexed at each place held. */
  ghost predicate Indexed(db: Db, kind: Kind, queue: Id) {
    && (forall p: nat | Entry(kind, queue, p) in db ::
          && Numbered(db[Entry(kind, queue, p)], queue, p)
          && Read(db, By(kind, queue, AboutOf(db[Entry(kind, queue, p)]))) == Some(PlaceV(p)))
    && (forall a: Id | By(kind, queue, a) in db && db[By(kind, queue, a)].PlaceV? ::
          && Entry(kind, queue, db[By(kind, queue, a)].place) in db
          && AboutOf(db[Entry(kind, queue, db[By(kind, queue, a)].place)]) == a)
    && (kind != DeadLine ==> forall a: Id | By(kind, queue, a) in db :: db[By(kind, queue, a)].PlaceV?)
  }

  /** The places held lie from the first kept to the next, and are counted; the first of an
      empty queue is its next. */
  ghost predicate Counted(db: Db, kind: Kind, queue: Id) {
    PlacesOf(db, kind, queue).Ok? &&
    var places := PlacesOf(db, kind, queue).value;
    && (forall p: nat | Entry(kind, queue, p) in db :: places.first <= p < places.next)
    && places.count == |PlacesIn(db.Keys, kind, queue)|
    && places.first <= places.next
    && (places.count == 0 ==> places.first == places.next)
  }

  ghost predicate LineOk(db: Db, kind: Kind, queue: Id) {
    Indexed(db, kind, queue) && Counted(db, kind, queue)
  }

  ghost predicate Sound(db: Db) {
    Typed(db) && forall kind, queue :: LineOk(db, kind, queue)
  }

  lemma EmptySound()
    ensures Sound(map[])
  {
    var none: Db := map[];
    forall kind, queue ensures LineOk(none, kind, queue) {
      assert PlacesIn(none.Keys, kind, queue) == {};
    }
  }

  ghost predicate SameLine(db: Db, after: Db, kind: Kind, queue: Id) {
    forall key | InLine(key, kind, queue) :: Read(db, key) == Read(after, key)
  }

  lemma LineKept(db: Db, after: Db, kind: Kind, queue: Id)
    requires LineOk(db, kind, queue) && SameLine(db, after, kind, queue)
    ensures LineOk(after, kind, queue)
  {
    forall p: nat ensures Entry(kind, queue, p) in db <==> Entry(kind, queue, p) in after {
      assert Read(db, Entry(kind, queue, p)) == Read(after, Entry(kind, queue, p));
    }
    forall p: nat ensures p in PlacesIn(db.Keys, kind, queue) <==> p in PlacesIn(after.Keys, kind, queue) {
      InPlaces(db.Keys, kind, queue, p);
      InPlaces(after.Keys, kind, queue, p);
    }
    assert PlacesIn(db.Keys, kind, queue) == PlacesIn(after.Keys, kind, queue);
    assert Read(db, PlacesAt(kind, queue)) == Read(after, PlacesAt(kind, queue));
    forall a: Id ensures Read(db, By(kind, queue, a)) == Read(after, By(kind, queue, a)) {
    }
    forall p: nat | Entry(kind, queue, p) in after ensures db[Entry(kind, queue, p)] == after[Entry(kind, queue, p)] {
      assert Read(db, Entry(kind, queue, p)) == Read(after, Entry(kind, queue, p));
    }
  }

  /** Only one queue's records changed, and it is in order: all are. */
  lemma SoundAfter(db: Db, after: Db, kind: Kind, queue: Id)
    requires Sound(db) && Typed(after) && LineOk(after, kind, queue)
    requires forall key | !InLine(key, kind, queue) :: Read(db, key) == Read(after, key)
    ensures Sound(after)
  {
    forall k, q ensures LineOk(after, k, q) {
      if k != kind || q != queue {
        assert SameLine(db, after, k, q);
        LineKept(db, after, k, q);
      }
    }
  }

  /** No record of any queue changed. */
  lemma SoundBeside(db: Db, after: Db)
    requires Sound(db) && Typed(after)
    requires forall key: Key | key.Entry? || key.By? || key.PlacesAt? :: Read(db, key) == Read(after, key)
    ensures Sound(after)
  {
    forall k, q ensures LineOk(after, k, q) {
      assert SameLine(db, after, k, q);
      LineKept(db, after, k, q);
    }
  }

  // ---- The three changes a queue is made of. ----

  predicate MadeAbout(made: Fresh, queue: Id, about: Id) {
    match made
    case FreshHeld(hold) => hold.queue == queue && hold.journey == about
    case FreshFailed(journey, _, _, _) => journey == about
    case FreshDead(message) => message.queue == queue && message.message == about
  }

  lemma PlacesGain(db: Db, after: Db, kind: Kind, queue: Id, place: nat)
    requires Entry(kind, queue, place) !in db
    requires forall p: nat :: Entry(kind, queue, p) in after <==> p == place || Entry(kind, queue, p) in db
    ensures |PlacesIn(after.Keys, kind, queue)| == |PlacesIn(db.Keys, kind, queue)| + 1
  {
    forall p: nat
      ensures p in PlacesIn(after.Keys, kind, queue) <==> p in PlacesIn(db.Keys, kind, queue) + {place}
    {
      InPlaces(db.Keys, kind, queue, p);
      InPlaces(after.Keys, kind, queue, p);
    }
    InPlaces(db.Keys, kind, queue, place);
    assert PlacesIn(after.Keys, kind, queue) == PlacesIn(db.Keys, kind, queue) + {place};
  }

  lemma PlaceIndexed(db: Db, kind: Kind, queue: Id, about: Id, made: Fresh)
    requires Sound(db) && MadeFor(kind, made) && MadeAbout(made, queue, about)
    requires By(kind, queue, about) !in db
    ensures Indexed(Place(db, kind, queue, about, made).value, kind, queue)
  {
    assert LineOk(db, kind, queue);
    var next := PlacesOf(db, kind, queue).value.next;
    assert Entry(kind, queue, next) !in db;
  }

  lemma PlaceSound(db: Db, kind: Kind, queue: Id, about: Id, made: Fresh)
    requires Sound(db) && MadeFor(kind, made) && MadeAbout(made, queue, about)
    ensures Came(Place(db, kind, queue, about, made)) && Sound(Place(db, kind, queue, about, made).value)
  {
    PlaceTyped(db, kind, queue, about, made);
    if By(kind, queue, about) !in db {
      var after := Place(db, kind, queue, about, made).value;
      assert LineOk(db, kind, queue);
      PlaceIndexed(db, kind, queue, about, made);
      PlacesGain(db, after, kind, queue, PlacesOf(db, kind, queue).value.next);
      SoundAfter(db, after, kind, queue);
    }
  }

  /** An entry taken out, and what it is about forgotten, or remembered as taken out. */
  function TakenFrom(db: Db, kind: Kind, queue: Id, place: nat, gone: Option<Value>): Db
    requires Typed(db) && Entry(kind, queue, place) in db
  {
    var entry := db[Entry(kind, queue, place)];
    TakeOutTyped(db, kind, queue, place);
    Write(TakeOut(db, kind, queue, place).value.0, By(kind, queue, AboutOf(entry)), gone)
  }

  lemma TakeOutIndexed(db: Db, kind: Kind, queue: Id, place: nat, gone: Option<Value>)
    requires Sound(db) && Entry(kind, queue, place) in db
    requires gone == None || (kind == DeadLine && gone == Some(TakenOutV))
    ensures Indexed(TakenFrom(db, kind, queue, place, gone), kind, queue)
  {
    assert LineOk(db, kind, queue);
  }

  lemma TakeOutSound(db: Db, kind: Kind, queue: Id, place: nat, gone: Option<Value>)
    requires Sound(db) && Entry(kind, queue, place) in db
    requires gone == None || (kind == DeadLine && gone == Some(TakenOutV))
    ensures Sound(TakenFrom(db, kind, queue, place, gone))
    ensures PlacesOf(TakenFrom(db, kind, queue, place, gone), kind, queue).value.next
         == PlacesOf(db, kind, queue).value.next
  {
    var after := TakenFrom(db, kind, queue, place, gone);
    assert LineOk(db, kind, queue);
    TakeOutTyped(db, kind, queue, place);
    TakeOutIndexed(db, kind, queue, place, gone);
    PlacesGain(after, db, kind, queue, place);
    if PlacesOf(after, kind, queue).value.count == 0 {
      forall p: nat ensures Entry(kind, queue, p) !in after {
        InPlaces(after.Keys, kind, queue, p);
      }
    }
    SoundAfter(db, after, kind, queue);
  }

  /** An entry marked, or given a due time, where it is. */
  lemma UpdateSound(db: Db, queue: Id, place: nat, held: Held)
    requires Sound(db) && Entry(HeldLine, queue, place) in db
    requires held.sequence == place && held.hold == db[Entry(HeldLine, queue, place)].held.hold
    ensures Sound(db[Entry(HeldLine, queue, place) := HeldV(held)])
  {
    var after := db[Entry(HeldLine, queue, place) := HeldV(held)];
    assert LineOk(db, HeldLine, queue);
    forall p: nat ensures p in PlacesIn(db.Keys, HeldLine, queue) <==> p in PlacesIn(after.Keys, HeldLine, queue) {
      InPlaces(db.Keys, HeldLine, queue, p);
      InPlaces(after.Keys, HeldLine, queue, p);
    }
    assert PlacesIn(db.Keys, HeldLine, queue) == PlacesIn(after.Keys, HeldLine, queue);
    SoundAfter(db, after, HeldLine, queue);
  }
}
