/** The ranges of its indexes a queue is read from (`due.rs`, `queue.rs`, `columns/ordered.rs`):
    after every run, what the reads of `Due` and `Paging` take them for. */
module Ranges {
  import opened Wrappers
  import opened Records
  import opened Queues
  import opened Holds
  import opened Operations
  import opened Shapes
  import opened Lines
  import opened Encoding
  import C = Columns
  import Order
  import Due
  import Settling
  import Paging
  import Laid
  import Conserved
  import Once

  // ---- An index that begins with the queue. ----

  /** The numbers of the queues' indexes tell which they are. */
  lemma IndexOf(kind: nat, i: nat)
    requires kind in Laid.QueueTables() && i < |Laid.QueueTables()[kind].indexes|
    ensures var index := Laid.QueueTables()[kind].indexes[i];
            && (index.number == 23 ==> kind == 1 && index == Laid.HeldTable().indexes[2])
            && (index.number == 20 ==> kind == 1 && index == Laid.HeldTable().indexes[1])
            && (index.number == 21 ==> kind == 2 && index == Laid.DeadTable().indexes[0])
            && (index.number == 22 ==> kind == 3 && index == Laid.FailedTable().indexes[0])
  {
  }

  lemma KeyParts(t: C.Table, index: C.Index, r: C.Record, n: nat)
    requires C.RecordOk(t, r) && C.Belongs(index, r.row) && n <= |index.columns|
    ensures var values := C.ValuesOf(index, r.row);
            && AllInWidth(values[..n]) && AllInWidth(values[n..])
            && C.KeyOf(t, index, r) == [index.number] + (EncodedAll(values[..n]) + (EncodedAll(values[n..]) + BigEndian(r.id, 16)))
  {
    C.ValuesFit(t, index, r);
    var values := C.ValuesOf(index, r.row);
    hide Encoded, EncodedAll, BigEndian, Pow256, InWidth, AreBytes, C.ValuesOf, C.Belongs, C.RecordOk;
    assert values == values[..n] + values[n..];
    EncodedAppends(values[..n], values[n..]);
  }

  lemma BeginsWith(number: nat, a: Bytes, rest: Bytes, b: Bytes)
    ensures [number] + b <= [number] + (a + rest) ==> b + (a + rest)[|b|..] == a + rest
  {
    if [number] + b <= [number] + (a + rest) {
      var key := [number] + (a + rest);
      assert key[1..] == a + rest && ([number] + b)[1..] == b && key[1..][..|b|] == b;
    }
  }

  lemma BeginsSo(number: nat, a: Bytes, rest: Bytes)
    ensures [number] + a <= [number] + (a + rest)
  {
    assert [number] + (a + rest) == ([number] + a) + rest;
  }

  /** A key of an index and the values it begins with are a record's that has them. */
  lemma KeyHas(t: C.Table, index: C.Index, r: C.Record, equal: seq<Encoding.Value>)
    requires C.RecordOk(t, r) && C.Belongs(index, r.row) && |equal| <= |index.columns| && AllInWidth(equal)
    requires SameKinds(C.ValuesOf(index, r.row)[..|equal|], equal)
    ensures [index.number] + EncodedAll(equal) <= C.KeyOf(t, index, r) <==> C.ValuesOf(index, r.row)[..|equal|] == equal
  {
    hide Encoded, EncodedAll, BigEndian, Pow256, InWidth, AreBytes, C.KeyOf, C.Belongs, C.RecordOk, SameKinds;
    hide AllInWidth;
    KeyParts(t, index, r, |equal|);
    var values := C.ValuesOf(index, r.row);
    hide C.ValuesOf;
    var before, rest := values[..|equal|], EncodedAll(values[|equal|..]) + BigEndian(r.id, 16);
    BeginsWith(index.number, EncodedAll(before), rest, EncodedAll(equal));
    BeginsSo(index.number, EncodedAll(before), rest);
    if [index.number] + EncodedAll(equal) <= C.KeyOf(t, index, r) {
      EncodedAllEnds(before, equal, rest, (EncodedAll(before) + rest)[|EncodedAll(equal)|..]);
    }
  }

  // ---- When each is due. ----

  /** Before the due time: the queue, and whether it failed there. */
  function DueFirst(queue: Id, failed: bool): Bytes {
    [23] + (BigEndian(queue, 16) + [if failed then 1 else 0])
  }

  function DueKey(queue: Id, failed: bool, pos: Order.Pos, journey: Id): Bytes {
    DueFirst(queue, failed) + (BigEndian(pos.due, 8) + (BigEndian(pos.place, 8) + BigEndian(journey, 16)))
  }

  function DueIndex(): C.Index {
    Laid.HeldTable().indexes[2]
  }

  /** The row of the Message held at `p`, as the index of when each is due has it. */
  lemma HeldRow(entries: Db, store: C.Store, queue: Id, p: nat)
    requires Laid.LaidOut(entries, store) && C.StoreOk(Laid.QueueTables(), store)
    requires Read(entries, Entry(HeldLine, queue, p)).Some? && entries[Entry(HeldLine, queue, p)].HeldV?
    ensures var held := entries[Entry(HeldLine, queue, p)].held; var place := Laid.PlaceOf(Entry(HeldLine, queue, p));
            && place in store && C.RecordOk(Laid.HeldTable(), store[place]) && store[place].id == held.hold.journey
            && C.Belongs(DueIndex(), store[place].row)
            && C.ValuesOf(DueIndex(), store[place].row) == [Ident(queue), Flag(held.failed), Time(held.DueAt()), Count(p)]
  {
    hide BigEndian, Pow256, C.RecordOk;
    var key := Entry(HeldLine, queue, p);
    var held := entries[key].held;
    var r := store[Laid.PlaceOf(key)];
    assert Laid.NamedAs(r, key, entries[key]);
    var row := Laid.RowOf(entries[key], key).row;
    assert row["queue"] == Ident(queue) && row["failed"] == Flag(held.failed);
    assert row["due_at"] == Time(held.DueAt()) && row["sequence"] == Count(p);
    assert DueIndex().columns == ["queue", "failed", "due_at", "sequence"];
  }

  lemma FourEncoded(values: seq<Encoding.Value>)
    requires |values| == 4 && AllInWidth(values)
    ensures EncodedAll(values) == Encoded(values[0]) + (Encoded(values[1]) + (Encoded(values[2]) + Encoded(values[3])))
  {
    hide Encoded, AreBytes;
    assert values[1..][1..] == values[2..] && values[2..][1..] == values[3..] && values[3..][1..] == [];
    assert EncodedAll(values[3..]) == Encoded(values[3]) + EncodedAll([]);
    assert EncodedAll(values[2..]) == Encoded(values[2]) + EncodedAll(values[3..]);
    assert EncodedAll(values[1..]) == Encoded(values[1]) + EncodedAll(values[2..]);
  }

  lemma TwoEncoded(values: seq<Encoding.Value>)
    requires |values| == 2 && AllInWidth(values)
    ensures EncodedAll(values) == Encoded(values[0]) + Encoded(values[1])
  {
    hide Encoded, AreBytes;
    assert values[1..][1..] == [];
    assert EncodedAll(values[1..]) == Encoded(values[1]) + EncodedAll([]);
  }

  lemma DueKeyIs(r: C.Record, queue: Id, failed: bool, pos: Order.Pos)
    requires C.RecordOk(Laid.HeldTable(), r) && C.Belongs(DueIndex(), r.row)
    requires C.ValuesOf(DueIndex(), r.row) == [Ident(queue), Flag(failed), Time(pos.due), Count(pos.place)]
    ensures C.KeyOf(Laid.HeldTable(), DueIndex(), r) == DueKey(queue, failed, pos, r.id)
  {
    hide BigEndian, Pow256, C.Belongs, C.RecordOk, InWidth, AreBytes, C.ValuesOf, EncodedAll;
    var values := C.ValuesOf(DueIndex(), r.row);
    KeyParts(Laid.HeldTable(), DueIndex(), r, 4);
    assert values[..4] == values && values[4..] == [];
    C.NoneEncoded();
    FourEncoded(values);
  }

  ghost predicate Laying(db: Db, store: C.Store, index: C.IndexStore) {
    && Typed(db) && Laid.LaidOut(Laid.EntriesOf(db), store)
    && C.StoreOk(Laid.QueueTables(), store) && C.Exact(Laid.QueueTables(), store, index)
  }

  /** The Message held at `place`. */
  function JourneyIn(entries: Due.Entries, place: nat): Id {
    if place in entries then entries[place].hold.journey else 0
  }

  /** `key` is that of the Message held at `pos`, failed there or not. */
  ghost predicate IsDueKey(db: Db, queue: Id, failed: bool, key: Bytes, pos: Order.Pos) {
    var entries := Settling.EntriesOf(db, queue);
    pos in Due.Indexed(entries, failed) && key == DueKey(queue, failed, pos, JourneyIn(entries, pos.place))
  }

  lemma HeldThere(db: Db, queue: Id, p: nat)
    requires Typed(db)
    ensures p in Settling.EntriesOf(db, queue) <==> Entry(HeldLine, queue, p) in db
    ensures Entry(HeldLine, queue, p) in db ==>
              db[Entry(HeldLine, queue, p)] == HeldV(Settling.EntriesOf(db, queue)[p])
  {
    InPlaces(db.Keys, HeldLine, queue, p);
  }

  lemma DueKeyThere(r: C.Record)
    requires C.RecordOk(Laid.HeldTable(), r) && C.Belongs(DueIndex(), r.row)
    ensures C.KeyOf(Laid.HeldTable(), DueIndex(), r) in C.KeysOf(Laid.HeldTable(), r)
  {
    hide C.KeyOf, C.KeysOf, C.RecordOk, C.Belongs;
    C.KeyThere(Laid.HeldTable(), 2, r);
  }

  /** The record an entry of the index of when each is due is of. */
  lemma DueOwner(store: C.Store, index: C.IndexStore, key: Bytes) returns (at: C.Place)
    requires C.StoreOk(Laid.QueueTables(), store) && C.Exact(Laid.QueueTables(), store, index) && key in index
    requires key != [] && key[0] == 23
    ensures at in store && at.kind == 1 && C.RecordOk(Laid.HeldTable(), store[at]) && C.Belongs(DueIndex(), store[at].row)
    ensures key == C.KeyOf(Laid.HeldTable(), DueIndex(), store[at])
  {
    hide C.KeyOf, C.KeysOf, C.AllThere, C.RecordOk, C.Belongs, Laid.HeldTable, Laid.DeadTable, Laid.FailedTable;
    hide Laid.QueueTables;
    at :| C.OwnEntry(Laid.QueueTables(), store, at, key, index[key]);
    var i := C.KeyNumber(Laid.QueueTables()[at.kind], store[at], key);
    IndexOf(at.kind, i);
    TableOne();
  }

  lemma TableOne()
    ensures 1 in Laid.QueueTables() && Laid.QueueTables()[1] == Laid.HeldTable()
  {
  }

  lemma DueIsThere(db: Db, store: C.Store, index: C.IndexStore, queue: Id, failed: bool, key: Bytes, pos: Order.Pos)
    requires Laying(db, store, index) && IsDueKey(db, queue, failed, key, pos)
    ensures key in index && DueFirst(queue, failed) <= key
    ensures index[key] == JourneyIn(Settling.EntriesOf(db, queue), pos.place)
    ensures queue < Pow256(16) && pos.due < Pow256(8) && pos.place < Pow256(8)
  {
    hide C.KeyOf, C.KeysOf, C.NoStray, BigEndian, EncodedAll, Laid.HeldTable, C.ValuesOf, C.Belongs, Pow256;
    HeldThere(db, queue, pos.place);
    HeldRow(Laid.EntriesOf(db), store, queue, pos.place);
    var place := Laid.PlaceOf(Entry(HeldLine, queue, pos.place));
    DueKeyIs(store[place], queue, failed, pos);
    DueKeyThere(store[place]);
    C.ValuesFit(Laid.HeldTable(), DueIndex(), store[place]);
    var values := C.ValuesOf(DueIndex(), store[place].row);
    assert InWidth(values[0]) && InWidth(values[2]) && InWidth(values[3]);
  }

  lemma DueIsOf(db: Db, store: C.Store, index: C.IndexStore, queue: Id, failed: bool,
                key: Bytes) returns (pos: Order.Pos)
    requires Laying(db, store, index) && queue < Pow256(16) && key in index && DueFirst(queue, failed) <= key
    ensures IsDueKey(db, queue, failed, key, pos)
  {
    hide C.KeyOf, C.KeysOf, C.Exact, BigEndian, EncodedAll, Laid.HeldTable, C.ValuesOf, C.Belongs, Pow256;
    hide Settling.EntriesOf;
    assert key[0] == 23;
    var at := DueOwner(store, index, key);
    var own: Key :| Laid.AtPlaceOf(Laid.EntriesOf(db), own, at);
    assert own.kind == HeldLine && db[own].HeldV?;
    HeldRow(Laid.EntriesOf(db), store, own.queue, own.place);
    var held := db[own].held;
    pos := Order.Pos(held.DueAt(), own.place);
    BeginsDue(store[at], queue, failed);
    DueKeyIs(store[at], queue, failed, pos);
    HeldThere(db, queue, own.place);
  }

  lemma BeginsDue(r: C.Record, queue: Id, failed: bool)
    requires C.RecordOk(Laid.HeldTable(), r) && C.Belongs(DueIndex(), r.row) && queue < Pow256(16)
    requires var values := C.ValuesOf(DueIndex(), r.row); |values| == 4 && values[0].Ident? && values[1].Flag?
    ensures DueFirst(queue, failed) <= C.KeyOf(Laid.HeldTable(), DueIndex(), r)
       <==> C.ValuesOf(DueIndex(), r.row)[..2] == [Ident(queue), Flag(failed)]
  {
    hide C.KeyOf, C.ValuesOf, C.Belongs, C.RecordOk, BigEndian, EncodedAll, Pow256;
    var equal := [Ident(queue), Flag(failed)];
    assert InWidth(equal[0]) && InWidth(equal[1]);
    TwoEncoded(equal);
    assert DueIndex().number == 23;
    KeyHas(Laid.HeldTable(), DueIndex(), r, equal);
  }

  // ---- The range read. ----

  /** Where a read of a part begins, and where it ends: past every key due at `to`. */
  function DueFrom(queue: Id, failed: bool, start: Order.Pos): Bytes {
    DueFirst(queue, failed) + (BigEndian(start.due, 8) + BigEndian(start.place, 8))
  }

  function DueTo(queue: Id, failed: bool, to: nat): Bytes {
    DueFirst(queue, failed) + (BigEndian(to, 8) + Full(25))
  }

  predicate PosFits(pos: Order.Pos) {
    pos.due < Pow256(8) && pos.place < Pow256(8)
  }

  lemma PosParts(a: Order.Pos, b: Order.Pos, x: Bytes, y: Bytes)
    requires PosFits(a) && PosFits(b)
    ensures Less(BigEndian(a.due, 8) + (BigEndian(a.place, 8) + x), BigEndian(b.due, 8) + (BigEndian(b.place, 8) + y))
       <==> Order.Before(a, b) || (a == b && Less(x, y))
  {
    hide BigEndian, Less, Pow256;
    var ad, ap, bd, bp := BigEndian(a.due, 8), BigEndian(a.place, 8), BigEndian(b.due, 8), BigEndian(b.place, 8);
    LessParts(ad, bd, ap + x, bp + y);
    LessParts(ap, bp, x, y);
    BigEndianSorts(a.due, b.due, 8);
    BigEndianSorts(a.place, b.place, 8);
  }

  lemma SamePrefix(prefix: Bytes, x: Bytes, y: Bytes)
    ensures Less(prefix + x, prefix + y) <==> Less(x, y)
  {
    hide Less;
    LessParts(prefix, prefix, x, y);
    NotLessItself(prefix);
  }

  /** The order of the keys is the order each is due in, then that of the places. */
  lemma DueInOrder(queue: Id, failed: bool, a: Order.Pos, b: Order.Pos, one: Id, other: Id)
    requires PosFits(a) && PosFits(b) && a != b
    ensures Less(DueKey(queue, failed, a, one), DueKey(queue, failed, b, other)) <==> Order.Before(a, b)
  {
    hide BigEndian, Less, Pow256, DueFirst;
    SamePrefix(DueFirst(queue, failed), BigEndian(a.due, 8) + (BigEndian(a.place, 8) + BigEndian(one, 16)),
               BigEndian(b.due, 8) + (BigEndian(b.place, 8) + BigEndian(other, 16)));
    PosParts(a, b, BigEndian(one, 16), BigEndian(other, 16));
  }

  lemma DueInRange(queue: Id, failed: bool, pos: Order.Pos, journey: Id, start: Order.Pos, to: nat)
    requires PosFits(pos) && PosFits(start) && to < Pow256(8)
    ensures C.InRange(DueKey(queue, failed, pos, journey), DueFrom(queue, failed, start), DueTo(queue, failed, to))
       <==> !Order.Before(pos, start) && pos.due <= to
  {
    hide BigEndian, Less, Pow256, DueFirst, Full;
    var first, id := DueFirst(queue, failed), BigEndian(journey, 16);
    var due, place := BigEndian(pos.due, 8), BigEndian(pos.place, 8);
    assert BigEndian(start.place, 8) + [] == BigEndian(start.place, 8);
    SamePrefix(first, due + (place + id), BigEndian(start.due, 8) + BigEndian(start.place, 8));
    PosParts(pos, start, id, []);
    C.EmptyLeast(id);
    SamePrefix(first, BigEndian(to, 8) + Full(25), due + (place + id));
    LessParts(BigEndian(to, 8), due, Full(25), place + id);
    BigEndianSorts(to, pos.due, 8);
    FullIsLast(place + id, 25);
    LessOneWay(place + id, Full(25));
  }

  /** The entries a range holds, one for each key of it, in order. */
  lemma DueFound(db: Db, store: C.Store, index: C.IndexStore, queue: Id, failed: bool, start: Order.Pos,
                 to: nat, keys: seq<Bytes>)
    returns (found: seq<Order.Pos>)
    requires Laying(db, store, index) && queue < Pow256(16) && PosFits(start) && to < Pow256(8)
    requires C.Scans(index, DueFrom(queue, failed, start), DueTo(queue, failed, to), keys)
    ensures |found| == |keys| && forall i | 0 <= i < |keys| :: IsDueKey(db, queue, failed, keys[i], found[i])
  {
    hide BigEndian, Less, Pow256, DueFirst, Full, Laying, IsDueKey;
    found := [];
    for i := 0 to |keys|
      invariant |found| == i && forall j | 0 <= j < i :: IsDueKey(db, queue, failed, keys[j], found[j])
    {
      assert keys[i] in keys;
      BetweenHasPrefix(DueFirst(queue, failed), BigEndian(start.due, 8) + BigEndian(start.place, 8),
                       BigEndian(to, 8) + Full(25), keys[i]);
      var pos := DueIsOf(db, store, index, queue, failed, keys[i]);
      found := found + [pos];
    }
  }

  lemma FoundInOrder(db: Db, queue: Id, failed: bool, one: Bytes, other: Bytes, a: Order.Pos, b: Order.Pos)
    requires IsDueKey(db, queue, failed, one, a) && IsDueKey(db, queue, failed, other, b) && PosFits(a) && PosFits(b)
    ensures Less(one, other) ==> Order.Before(a, b)
    ensures one == other ==> a == b
  {
    hide Less, DueKey, Settling.EntriesOf, Due.Indexed, PosFits, JourneyIn;
    var entries := Settling.EntriesOf(db, queue);
    NotLessItself(one);
    if a != b {
      DueInOrder(queue, failed, a, b, JourneyIn(entries, a.place), JourneyIn(entries, b.place));
      DueInOrder(queue, failed, b, a, JourneyIn(entries, b.place), JourneyIn(entries, a.place));
    }
  }

  function InSpan(index: set<Order.Pos>, start: Order.Pos, to: nat): set<Order.Pos> {
    set pos | pos in index && !Order.Before(pos, start) && pos.due <= to
  }

  /** One range of the engine is the part of the queue `Due` reads, in its order. */
  lemma DueIsRead(db: Db, store: C.Store, index: C.IndexStore, queue: Id, failed: bool, start: Order.Pos,
                  to: nat, most: nat, keys: seq<Bytes>)
    requires Laying(db, store, index) && queue < Pow256(16) && PosFits(start) && to < Pow256(8)
    requires C.Scans(index, DueFrom(queue, failed, start), DueTo(queue, failed, to), keys)
    ensures var entries := Settling.EntriesOf(db, queue);
            var read := Order.Range(Due.Indexed(entries, failed), start, to, most);
            && |read| == (if most < |keys| then most else |keys|)
            && forall i | 0 <= i < |read| ::
                 IsDueKey(db, queue, failed, keys[i], read[i]) && keys[i] in index
                 && index[keys[i]] == JourneyIn(entries, read[i].place)
  {
    hide BigEndian, Less, Pow256, DueFirst, Full, Laying, DueKey, Due.Indexed, Settling.EntriesOf, PosFits, JourneyIn;
    var entries := Settling.EntriesOf(db, queue);
    var span := InSpan(Due.Indexed(entries, failed), start, to);
    var found := DueFound(db, store, index, queue, failed, start, to, keys);
    forall i | 0 <= i < |keys| ensures keys[i] in index && index[keys[i]] == JourneyIn(entries, found[i].place) && found[i] in span {
      assert keys[i] in keys;
      DueFits(db, store, index, queue, failed, keys[i], found[i]);
      DueInRange(queue, failed, found[i], JourneyIn(entries, found[i].place), start, to);
    }
    forall i, j | 0 <= i < j < |found| ensures Order.Before(found[i], found[j]) {
      DueFits(db, store, index, queue, failed, keys[i], found[i]);
      DueFits(db, store, index, queue, failed, keys[j], found[j]);
      FoundInOrder(db, queue, failed, keys[i], keys[j], found[i], found[j]);
    }
    forall pos | pos in span ensures pos in found {
      var key := DueKey(queue, failed, pos, JourneyIn(entries, pos.place));
      DueFits(db, store, index, queue, failed, key, pos);
      DueInRange(queue, failed, pos, JourneyIn(entries, pos.place), start, to);
      var i :| 0 <= i < |keys| && keys[i] == key;
      DueFits(db, store, index, queue, failed, keys[i], found[i]);
      FoundInOrder(db, queue, failed, key, keys[i], pos, found[i]);
    }
    Order.AscendingLists(span);
    Order.ListedOnce(found, Order.Ascending(span), span);
  }

  lemma DueFits(db: Db, store: C.Store, index: C.IndexStore, queue: Id, failed: bool, key: Bytes, pos: Order.Pos)
    requires Laying(db, store, index) && IsDueKey(db, queue, failed, key, pos)
    ensures PosFits(pos) && key in index && index[key] == JourneyIn(Settling.EntriesOf(db, queue), pos.place)
  {
    hide Laying, DueKey;
    DueIsThere(db, store, index, queue, failed, key, pos);
  }

  // ---- A page: the places of a queue of any kind. ----

  function TableOf(kind: Records.Kind): C.Table {
    match kind
    case HeldLine => Laid.HeldTable()
    case DeadLine => Laid.DeadTable()
    case FailedLine => Laid.FailedTable()
  }

  function PlaceIndex(kind: Records.Kind): C.Index {
    match kind
    case HeldLine => Laid.HeldTable().indexes[1]
    case DeadLine => Laid.DeadTable().indexes[0]
    case FailedLine => Laid.FailedTable().indexes[0]
  }

  function PlaceFirst(kind: Records.Kind, queue: Id): Bytes {
    [PlaceIndex(kind).number] + BigEndian(queue, 16)
  }

  function PlaceKey(kind: Records.Kind, queue: Id, place: nat, about: Id): Bytes {
    PlaceFirst(kind, queue) + (BigEndian(place, 8) + BigEndian(about, 16))
  }

  function PlaceFrom(kind: Records.Kind, queue: Id, start: nat): Bytes {
    PlaceFirst(kind, queue) + BigEndian(start, 8)
  }

  function PlaceTo(kind: Records.Kind, queue: Id): Bytes {
    PlaceFirst(kind, queue) + (BigEndian(U64_MAX, 8) + Full(17))
  }

  /** What the entry at `place` is about. */
  function AboutIn(db: Db, kind: Records.Kind, queue: Id, place: nat): Id {
    if Entry(kind, queue, place) in db then AboutOf(db[Entry(kind, queue, place)]) else 0
  }

  ghost predicate IsPlaceKey(db: Db, kind: Records.Kind, queue: Id, key: Bytes, pos: Order.Pos) {
    pos in Paging.PlaceKeys(db, kind, queue) && key == PlaceKey(kind, queue, pos.place, AboutIn(db, kind, queue, pos.place))
  }

  lemma TablesAre(kind: Records.Kind)
    ensures Laid.KindOf(kind) in Laid.QueueTables() && Laid.QueueTables()[Laid.KindOf(kind)] == TableOf(kind)
    ensures PlaceIndex(kind) in TableOf(kind).indexes && PlaceIndex(kind).columns == ["queue", "sequence"]
    ensures PlaceIndex(kind).only.None? && (kind == HeldLine ==> PlaceIndex(kind).number == 20)
    ensures (kind == DeadLine ==> PlaceIndex(kind).number == 21) && (kind == FailedLine ==> PlaceIndex(kind).number == 22)
  {
    match kind
    case HeldLine => assert Laid.HeldTable().indexes[1] in Laid.HeldTable().indexes;
    case DeadLine => assert Laid.DeadTable().indexes[0] in Laid.DeadTable().indexes;
    case FailedLine => assert Laid.FailedTable().indexes[0] in Laid.FailedTable().indexes;
  }

  lemma PlaceRow(entries: Db, store: C.Store, kind: Records.Kind, queue: Id, p: nat)
    requires Laid.LaidOut(entries, store) && C.StoreOk(Laid.QueueTables(), store) && Entry(kind, queue, p) in entries
    ensures var place := Laid.PlaceOf(Entry(kind, queue, p));
            && place in store && C.RecordOk(TableOf(kind), store[place]) && store[place].id == AboutOf(entries[Entry(kind, queue, p)])
            && C.Belongs(PlaceIndex(kind), store[place].row)
            && C.ValuesOf(PlaceIndex(kind), store[place].row) == [Ident(queue), Count(p)]
  {
    TablesAre(kind);
    hide BigEndian, Pow256, C.RecordOk, Laid.HeldTable, Laid.DeadTable, Laid.FailedTable, TableOf, PlaceIndex;
    var key := Entry(kind, queue, p);
    var r := store[Laid.PlaceOf(key)];
    assert Laid.NamedAs(r, key, entries[key]);
    RowHas(entries[key], key);
    hide Laid.RowOf, Laid.LaidOut;
    var index := PlaceIndex(kind);
    assert index.columns[0] in r.row && index.columns[1] in r.row;
  }

  lemma RowHas(value: Records.Value, key: Key)
    requires key.Entry?
    ensures var row := Laid.RowOf(value, key).row;
            && "queue" in row && row["queue"] == Ident(key.queue) && "sequence" in row && row["sequence"] == Count(key.place)
  {
  }

  lemma PlaceKeyIs(r: C.Record, kind: Records.Kind, queue: Id, p: nat)
    requires C.RecordOk(TableOf(kind), r) && C.Belongs(PlaceIndex(kind), r.row)
    requires C.ValuesOf(PlaceIndex(kind), r.row) == [Ident(queue), Count(p)]
    ensures C.KeyOf(TableOf(kind), PlaceIndex(kind), r) == PlaceKey(kind, queue, p, r.id)
  {
    TablesAre(kind);
    hide BigEndian, Pow256, C.Belongs, C.RecordOk, InWidth, AreBytes, C.ValuesOf, EncodedAll, TableOf, PlaceIndex;
    var values := C.ValuesOf(PlaceIndex(kind), r.row);
    KeyParts(TableOf(kind), PlaceIndex(kind), r, 2);
    assert values[..2] == values && values[2..] == [];
    C.NoneEncoded();
    TwoEncoded(values);
  }

  lemma PlaceKeyThere(kind: Records.Kind, r: C.Record)
    requires C.RecordOk(TableOf(kind), r) && C.Belongs(PlaceIndex(kind), r.row)
    ensures C.KeyOf(TableOf(kind), PlaceIndex(kind), r) in C.KeysOf(TableOf(kind), r)
  {
    TablesAre(kind);
    hide C.KeyOf, C.KeysOf, C.RecordOk, C.Belongs, TableOf, PlaceIndex;
    var n :| 0 <= n < |TableOf(kind).indexes| && TableOf(kind).indexes[n] == PlaceIndex(kind);
    C.KeyThere(TableOf(kind), n, r);
  }

  lemma PlaceOwner(kind: Records.Kind, store: C.Store, index: C.IndexStore, key: Bytes) returns (at: C.Place)
    requires C.StoreOk(Laid.QueueTables(), store) && C.Exact(Laid.QueueTables(), store, index) && key in index
    requires key != [] && key[0] == PlaceIndex(kind).number
    ensures at in store && at.kind == Laid.KindOf(kind)
    ensures C.RecordOk(TableOf(kind), store[at]) && C.Belongs(PlaceIndex(kind), store[at].row)
    ensures key == C.KeyOf(TableOf(kind), PlaceIndex(kind), store[at])
  {
    TablesAre(kind);
    hide C.KeyOf, C.KeysOf, C.AllThere, C.RecordOk, C.Belongs, Laid.HeldTable, Laid.DeadTable, Laid.FailedTable;
    hide Laid.QueueTables;
    at :| C.OwnEntry(Laid.QueueTables(), store, at, key, index[key]);
    var i := C.KeyNumber(Laid.QueueTables()[at.kind], store[at], key);
    IndexOf(at.kind, i);
  }

  lemma PlaceIsThere(db: Db, store: C.Store, index: C.IndexStore, kind: Records.Kind, queue: Id, key: Bytes,
                     pos: Order.Pos)
    requires Laying(db, store, index) && IsPlaceKey(db, kind, queue, key, pos)
    ensures key in index && index[key] == AboutIn(db, kind, queue, pos.place) && PosFits(pos) && pos.due == 0
  {
    TablesAre(kind);
    Paging.InPlaceKeys(db, kind, queue, pos);
    hide C.KeyOf, C.KeysOf, C.NoStray, BigEndian, EncodedAll, TableOf, PlaceIndex, C.ValuesOf, C.Belongs;
    PlaceRow(Laid.EntriesOf(db), store, kind, queue, pos.place);
    var place := Laid.PlaceOf(Entry(kind, queue, pos.place));
    PlaceKeyIs(store[place], kind, queue, pos.place);
    PlaceKeyThere(kind, store[place]);
    C.ValuesFit(TableOf(kind), PlaceIndex(kind), store[place]);
    assert InWidth(C.ValuesOf(PlaceIndex(kind), store[place].row)[1]);
  }

  lemma PlaceIsOf(db: Db, store: C.Store, index: C.IndexStore, kind: Records.Kind, queue: Id,
                  key: Bytes) returns (pos: Order.Pos)
    requires Laying(db, store, index) && queue < Pow256(16) && key in index && PlaceFirst(kind, queue) <= key
    ensures IsPlaceKey(db, kind, queue, key, pos)
  {
    hide C.KeyOf, C.KeysOf, C.Exact, BigEndian, EncodedAll, TableOf, PlaceIndex, C.ValuesOf, C.Belongs, Pow256;
    assert key[0] == PlaceIndex(kind).number;
    var at := PlaceOwner(kind, store, index, key);
    var own: Key :| Laid.AtPlaceOf(Laid.EntriesOf(db), own, at);
    assert own.kind == kind;
    PlaceRow(Laid.EntriesOf(db), store, kind, own.queue, own.place);
    BeginsPlace(store[at], kind, queue);
    PlaceKeyIs(store[at], kind, own.queue, own.place);
    pos := Order.Pos(0, own.place);
    Paging.InPlaceKeys(db, kind, queue, pos);
  }

  lemma BeginsPlace(r: C.Record, kind: Records.Kind, queue: Id)
    requires C.RecordOk(TableOf(kind), r) && C.Belongs(PlaceIndex(kind), r.row) && queue < Pow256(16)
    requires var values := C.ValuesOf(PlaceIndex(kind), r.row); |values| == 2 && values[0].Ident?
    ensures PlaceFirst(kind, queue) <= C.KeyOf(TableOf(kind), PlaceIndex(kind), r)
       <==> C.ValuesOf(PlaceIndex(kind), r.row)[..1] == [Ident(queue)]
  {
    TablesAre(kind);
    hide C.KeyOf, C.ValuesOf, C.Belongs, C.RecordOk, BigEndian, EncodedAll, Pow256, TableOf, PlaceIndex;
    var equal := [Ident(queue)];
    assert InWidth(equal[0]);
    OneEncoded(equal);
    KeyHas(TableOf(kind), PlaceIndex(kind), r, equal);
  }

  lemma OneEncoded(values: seq<Encoding.Value>)
    requires |values| == 1 && AllInWidth(values)
    ensures EncodedAll(values) == Encoded(values[0])
  {
    hide Encoded, AreBytes;
    assert values[1..] == [];
    C.NoneEncoded();
    assert EncodedAll(values) == Encoded(values[0]) + [];
  }

  lemma WidthIs()
    ensures U64_MAX == Pow256(8) - 1
  {
    assert Pow256(1) == 0x100 && Pow256(2) == 0x1_0000 && Pow256(3) == 0x100_0000 && Pow256(4) == 0x1_0000_0000;
    assert Pow256(5) == 0x100_0000_0000 && Pow256(6) == 0x1_0000_0000_0000 && Pow256(7) == 0x100_0000_0000_0000;
  }

  lemma PlaceInOrder(kind: Records.Kind, queue: Id, a: nat, b: nat, one: Id, other: Id)
    requires a < Pow256(8) && b < Pow256(8) && a != b
    ensures Less(PlaceKey(kind, queue, a, one), PlaceKey(kind, queue, b, other)) <==> a < b
  {
    hide BigEndian, Less, Pow256, PlaceFirst;
    SamePrefix(PlaceFirst(kind, queue), BigEndian(a, 8) + BigEndian(one, 16), BigEndian(b, 8) + BigEndian(other, 16));
    LessParts(BigEndian(a, 8), BigEndian(b, 8), BigEndian(one, 16), BigEndian(other, 16));
    BigEndianSorts(a, b, 8);
  }

  lemma PlaceInRange(kind: Records.Kind, queue: Id, place: nat, about: Id, start: nat)
    requires place < Pow256(8) && start < Pow256(8)
    ensures C.InRange(PlaceKey(kind, queue, place, about), PlaceFrom(kind, queue, start), PlaceTo(kind, queue)) <==> start <= place
  {
    WidthIs();
    hide BigEndian, Less, Pow256, PlaceFirst, Full;
    var first, id, at := PlaceFirst(kind, queue), BigEndian(about, 16), BigEndian(place, 8);
    assert BigEndian(start, 8) + [] == BigEndian(start, 8);
    SamePrefix(first, at + id, BigEndian(start, 8));
    LessParts(at, BigEndian(start, 8), id, []);
    BigEndianSorts(place, start, 8);
    C.EmptyLeast(id);
    SamePrefix(first, BigEndian(U64_MAX, 8) + Full(17), at + id);
    LessParts(BigEndian(U64_MAX, 8), at, Full(17), id);
    BigEndianSorts(U64_MAX, place, 8);
    FullIsLast(id, 17);
    LessOneWay(id, Full(17));
  }

  lemma PlacesFound(db: Db, store: C.Store, index: C.IndexStore, kind: Records.Kind, queue: Id, start: nat,
                    keys: seq<Bytes>)
    returns (found: seq<Order.Pos>)
    requires Laying(db, store, index) && queue < Pow256(16) && start < Pow256(8)
    requires C.Scans(index, PlaceFrom(kind, queue, start), PlaceTo(kind, queue), keys)
    ensures |found| == |keys| && forall i | 0 <= i < |keys| :: IsPlaceKey(db, kind, queue, keys[i], found[i])
  {
    hide BigEndian, Less, Pow256, PlaceFirst, Full, Laying, IsPlaceKey;
    found := [];
    for i := 0 to |keys|
      invariant |found| == i && forall j | 0 <= j < i :: IsPlaceKey(db, kind, queue, keys[j], found[j])
    {
      assert keys[i] in keys;
      BetweenHasPrefix(PlaceFirst(kind, queue), BigEndian(start, 8), BigEndian(U64_MAX, 8) + Full(17), keys[i]);
      var pos := PlaceIsOf(db, store, index, kind, queue, keys[i]);
      found := found + [pos];
    }
  }

  lemma PlacesInOrder(db: Db, kind: Records.Kind, queue: Id, one: Bytes, other: Bytes, a: Order.Pos, b: Order.Pos)
    requires IsPlaceKey(db, kind, queue, one, a) && IsPlaceKey(db, kind, queue, other, b)
    requires PosFits(a) && PosFits(b) && a.due == b.due == 0
    ensures Less(one, other) ==> Order.Before(a, b)
    ensures one == other ==> a == b
  {
    hide Less, PlaceKey, Paging.PlaceKeys, AboutIn, Pow256;
    NotLessItself(one);
    if a != b {
      PlaceInOrder(kind, queue, a.place, b.place, AboutIn(db, kind, queue, a.place), AboutIn(db, kind, queue, b.place));
      PlaceInOrder(kind, queue, b.place, a.place, AboutIn(db, kind, queue, b.place), AboutIn(db, kind, queue, a.place));
    }
  }

  /** One range of the engine is the places of the queue from `start` on that `Paging` reads. */
  lemma PlacesAreRead(db: Db, store: C.Store, index: C.IndexStore, kind: Records.Kind, queue: Id, start: nat,
                      most: nat, keys: seq<Bytes>)
    requires Laying(db, store, index) && queue < Pow256(16) && start < Pow256(8)
    requires C.Scans(index, PlaceFrom(kind, queue, start), PlaceTo(kind, queue), keys)
    ensures var read := Paging.PlacedFrom(db, kind, queue, start, most);
            && |read| == (if most < |keys| then most else |keys|)
            && forall i | 0 <= i < |read| ::
                 IsPlaceKey(db, kind, queue, keys[i], read[i]) && keys[i] in index
                 && index[keys[i]] == AboutIn(db, kind, queue, read[i].place)
  {
    hide BigEndian, Less, Pow256, PlaceFirst, Full, Laying, PlaceKey, Paging.PlaceKeys, AboutIn, PosFits;
    var from := Order.From(Paging.PlaceKeys(db, kind, queue), Order.Pos(0, start));
    var found := PlacesFound(db, store, index, kind, queue, start, keys);
    forall i | 0 <= i < |keys|
      ensures keys[i] in index && index[keys[i]] == AboutIn(db, kind, queue, found[i].place)
      ensures found[i] in from && PosFits(found[i]) && found[i].due == 0
    {
      assert keys[i] in keys;
      PlaceReads(db, store, index, kind, queue, keys[i], found[i], start);
    }
    forall i, j | 0 <= i < j < |found| ensures Order.Before(found[i], found[j]) {
      PlacesInOrder(db, kind, queue, keys[i], keys[j], found[i], found[j]);
    }
    forall pos | pos in from ensures pos in found {
      var key := PlaceKey(kind, queue, pos.place, AboutIn(db, kind, queue, pos.place));
      PlaceReads(db, store, index, kind, queue, key, pos, start);
      var i :| 0 <= i < |keys| && keys[i] == key;
      PlacesInOrder(db, kind, queue, key, keys[i], pos, found[i]);
    }
    Order.AscendingLists(from);
    Order.ListedOnce(found, Order.Ascending(from), from);
  }

  lemma PlaceReads(db: Db, store: C.Store, index: C.IndexStore, kind: Records.Kind, queue: Id, key: Bytes,
                   pos: Order.Pos, start: nat)
    requires Laying(db, store, index) && IsPlaceKey(db, kind, queue, key, pos) && start < Pow256(8)
    ensures key in index && index[key] == AboutIn(db, kind, queue, pos.place) && PosFits(pos) && pos.due == 0
    ensures C.InRange(key, PlaceFrom(kind, queue, start), PlaceTo(kind, queue)) <==> !Order.Before(pos, Order.Pos(0, start))
  {
    hide Laying, PlaceKey, AboutIn, PlaceFrom, PlaceTo, C.InRange, Pow256;
    PlaceIsThere(db, store, index, kind, queue, key, pos);
    PlaceInRange(kind, queue, pos.place, AboutIn(db, kind, queue, pos.place), start);
  }

  // ---- After every run. ----

  lemma {:induction false} GroupsSound(ledger: Ledger, groups: seq<Laid.Group>)
    requires Sound(ledger.db)
    ensures Sound(Laid.RunGroups(ledger, groups).db)
    decreases |groups|
  {
    hide Sound;
    if groups != [] {
      Conserved.RunsSound(ledger, groups[0].asked);
      GroupsSound(Once.RunAsked(ledger, groups[0].asked), groups[1..]);
    }
  }

  /** What the runtime database holds after the groups. */
  function Held(groups: seq<Laid.Group>): Db {
    Laid.RunGroups(Ledger(map[], 0), groups).db
  }

  ghost predicate BatchesFit(groups: seq<Laid.Group>) {
    C.BatchesOk(Laid.QueueTables(), Laid.BatchesOf(Ledger(map[], 0), groups))
  }

  lemma TablesFit()
    ensures C.TablesOk(Laid.QueueTables()) && C.StoreOk(Laid.QueueTables(), map[])
  {
    Laid.QueueTablesOk();
  }

  /** The records of the queues' tables after the groups, and the entries of their indexes. */
  ghost function Written(groups: seq<Laid.Group>): (C.Store, C.IndexStore)
    requires BatchesFit(groups)
  {
    TablesFit();
    C.AllAfter(Laid.QueueTables(), map[], map[], Laid.BatchesOf(Ledger(map[], 0), groups))
  }

  lemma RunLaying(groups: seq<Laid.Group>)
    requires BatchesFit(groups)
    ensures Laying(Held(groups), Written(groups).0, Written(groups).1)
  {
    hide Laid.LaidOut, Laid.QueueTables, C.AllAfter, C.Exact, C.StoreOk, C.TablesOk, C.BatchesOk, LineOk;
    hide Laid.RunGroups, Laid.BatchesOf;
    TablesFit();
    EmptySound();
    GroupsSound(Ledger(map[], 0), groups);
    Laid.EveryRunIndexed(groups);
  }

  /** In every run of operations from an empty database, in whatever batches, what the engine
      reads of the index of when each is due, of a part of a queue from any position on and due
      at a time at the latest, is what `Due` reads that queue's part as, in order. */
  lemma EveryRunDue(groups: seq<Laid.Group>, queue: Id, failed: bool, start: Order.Pos, to: nat, most: nat,
                    keys: seq<Bytes>)
    requires BatchesFit(groups) && queue < Pow256(16) && PosFits(start) && to < Pow256(8)
    requires C.Scans(Written(groups).1, DueFrom(queue, failed, start), DueTo(queue, failed, to), keys)
    ensures var entries := Settling.EntriesOf(Held(groups), queue);
            var read := Order.Range(Due.Indexed(entries, failed), start, to, most);
            && |read| == (if most < |keys| then most else |keys|)
            && forall i | 0 <= i < |read| ::
                 IsDueKey(Held(groups), queue, failed, keys[i], read[i]) && keys[i] in Written(groups).1
                 && Written(groups).1[keys[i]] == JourneyIn(entries, read[i].place)
  {
    hide BatchesFit, Held, Written, Laying, C.Scans, Pow256, Order.Range, Due.Indexed, Settling.EntriesOf;
    hide IsDueKey, DueFrom, DueTo;
    RunLaying(groups);
    DueIsRead(Held(groups), Written(groups).0, Written(groups).1, queue, failed, start, to, most, keys);
  }

  /** And so of a page of any of the three kinds of queue, from any place on. */
  lemma EveryRunPaged(groups: seq<Laid.Group>, kind: Records.Kind, queue: Id, start: nat, most: nat, keys: seq<Bytes>)
    requires BatchesFit(groups) && queue < Pow256(16) && start < Pow256(8)
    requires C.Scans(Written(groups).1, PlaceFrom(kind, queue, start), PlaceTo(kind, queue), keys)
    ensures var read := Paging.PlacedFrom(Held(groups), kind, queue, start, most);
            && |read| == (if most < |keys| then most else |keys|)
            && forall i | 0 <= i < |read| ::
                 IsPlaceKey(Held(groups), kind, queue, keys[i], read[i]) && keys[i] in Written(groups).1
                 && Written(groups).1[keys[i]] == AboutIn(Held(groups), kind, queue, read[i].place)
  {
    hide BatchesFit, Held, Written, Laying, C.Scans, Pow256, Paging.PlacedFrom, IsPlaceKey, PlaceFrom, PlaceTo, AboutIn;
    RunLaying(groups);
    PlacesAreRead(Held(groups), Written(groups).0, Written(groups).1, kind, queue, start, most, keys);
  }
}
