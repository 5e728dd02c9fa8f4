/** A queue read a page at a time (`queue.rs`, `page`): one ordered range from a place, however
    far apart the places it still holds are. */
module Paging {
  import opened Wrappers
  import opened Records
  import opened Queues
  import opened Lines
  import opened Order

  /** The queue's index: an entry for each place held. */
  function PlaceKeys(db: Db, kind: Kind, queue: Id): set<Pos> {
    set p | p in PlacesIn(db.Keys, kind, queue) :: Pos(0, p)
  }

  lemma InPlaceKeys(db: Db, kind: Kind, queue: Id, k: Pos)
    ensures k in PlaceKeys(db, kind, queue) <==> k.due == 0 && Entry(kind, queue, k.place) in db
  {
    InPlaces(db.Keys, kind, queue, k.place);
    if k.due == 0 && k.place in PlacesIn(db.Keys, kind, queue) {
      assert k == Pos(0, k.place);
    }
  }

  /** The entries kept at the places found. */
  function EntriesAt(db: Db, kind: Kind, queue: Id, found: seq<Pos>): seq<Value> {
    if found == [] then []
    else
      var rest := EntriesAt(db, kind, queue, found[1..]);
      if Entry(kind, queue, found[0].place) in db then [db[Entry(kind, queue, found[0].place)]] + rest else rest
  }

  /** The places held from `start` on, up to `most`, in order: one range of the index. */
  function PlacedFrom(db: Db, kind: Kind, queue: Id, start: nat, most: nat): seq<Pos> {
    Take(Ascending(From(PlaceKeys(db, kind, queue), Pos(0, start))), most)
  }

  lemma FromFirst(db: Db, kind: Kind, queue: Id, start: nat)
    requires LineOk(db, kind, queue)
    ensures var first := PlacesOf(db, kind, queue).value.first;
            && From(PlaceKeys(db, kind, queue), Pos(0, Max(start, first))) == From(PlaceKeys(db, kind, queue), Pos(0, start))
            && From(PlaceKeys(db, kind, queue), Pos(0, first)) == PlaceKeys(db, kind, queue)
  {
    forall k | k in PlaceKeys(db, kind, queue)
      ensures k.due == 0 && PlacesOf(db, kind, queue).value.first <= k.place
    {
      InPlaceKeys(db, kind, queue, k);
    }
  }

  lemma {:induction false} SameSize(places: set<nat>)
    ensures |set p | p in places :: Pos(0, p)| == |places|
  {
    if places != {} {
      var one :| one in places;
      SameSize(places - {one});
      assert (set p | p in places :: Pos(0, p)) == (set p | p in places - {one} :: Pos(0, p)) + {Pos(0, one)};
    }
  }

  lemma KeysCounted(db: Db, kind: Kind, queue: Id)
    requires LineOk(db, kind, queue)
    ensures |PlaceKeys(db, kind, queue)| == PlacesOf(db, kind, queue).value.count
  {
    SameSize(PlacesIn(db.Keys, kind, queue));
  }

  lemma FirstIsLeast(index: set<Pos>)
    requires index != {}
    ensures |Take(Ascending(index), 1)| == 1 && Take(Ascending(index), 1)[0] == Least(index)
  {
  }

  /** A page: the queue's places with its true first, and the entries from `start` on. */
  method ReadPage(db: Db, kind: Kind, queue: Id, start: nat, most: nat)
    returns (places: Places, entries: seq<Value>)
    requires LineOk(db, kind, queue)
    ensures var keys := PlaceKeys(db, kind, queue); var kept := PlacesOf(db, kind, queue).value;
            && entries == EntriesAt(db, kind, queue, Take(Ascending(From(keys, Pos(0, start))), most))
            && places.count == |keys| && places.next == kept.next
            && places.first == if keys == {} then kept.next else Least(keys).place
  {
    places := PlacesOf(db, kind, queue).value;
    KeysCounted(db, kind, queue);
    FromFirst(db, kind, queue, start);
    ghost var keys := PlaceKeys(db, kind, queue);
    if places.count == 0 {
      assert From(keys, Pos(0, start)) == {};
      return places, [];
    }
    FirstIsLeast(keys);
    var at := Max(start, places.first);
    var found := if most == 0 then [] else PlacedFrom(db, kind, queue, at, most);
    var first;
    if found != [] && at == places.first {
      assert Ascending(keys)[0] == Least(keys);
      first := found[0].place;
    } else {
      var oldest := PlacedFrom(db, kind, queue, places.first, 1);
      first := if oldest == [] then places.next else oldest[0].place;
    }
    places := places.(first := first);
    entries := EntriesAt(db, kind, queue, found);
  }

  ghost predicate InOrder(entries: seq<Value>, kind: Kind, queue: Id, places: seq<Pos>) {
    |entries| == |places| && forall i | 0 <= i < |entries| :: Numbered(entries[i], queue, places[i].place)
  }

  lemma {:induction false} EntriesNumbered(db: Db, kind: Kind, queue: Id, found: seq<Pos>)
    requires LineOk(db, kind, queue) && forall k | k in found :: k in PlaceKeys(db, kind, queue)
    ensures InOrder(EntriesAt(db, kind, queue, found), kind, queue, found)
  {
    if found != [] {
      assert found[0] in found;
      InPlaceKeys(db, kind, queue, found[0]);
      EntriesNumbered(db, kind, queue, found[1..]);
    }
  }

  /** Paged through from its start, whatever was taken out of it, a queue in order gives every
      entry it holds once, at places strictly rising. */
  lemma PagedWhole(db: Db, kind: Kind, queue: Id, most: nat)
    requires LineOk(db, kind, queue) && most > 0
    ensures var found := Pages(PlaceKeys(db, kind, queue), Pos(0, 0), most);
            && |found| == PlacesOf(db, kind, queue).value.count
            && (forall i, j | 0 <= i < j < |found| :: found[i].place < found[j].place)
            && (forall place: nat :: Entry(kind, queue, place) in db <==> Pos(0, place) in found)
            && InOrder(EntriesAt(db, kind, queue, found), kind, queue, found)
  {
    var keys := PlaceKeys(db, kind, queue);
    forall k | k in keys ensures !Before(k, Pos(0, 0)) {
      InPlaceKeys(db, kind, queue, k);
    }
    assert From(keys, Pos(0, 0)) == keys;
    PagesReadAll(keys, Pos(0, 0), most);
    AscendingLists(keys);
    KeysCounted(db, kind, queue);
    var found := Ascending(keys);
    forall i, j | 0 <= i < j < |found| ensures found[i].place < found[j].place {
      assert found[i] in found && found[j] in found;
      InPlaceKeys(db, kind, queue, found[i]);
      InPlaceKeys(db, kind, queue, found[j]);
    }
    forall place: nat ensures Entry(kind, queue, place) in db <==> Pos(0, place) in found {
      InPlaceKeys(db, kind, queue, Pos(0, place));
    }
    EntriesNumbered(db, kind, queue, found);
  }
}
