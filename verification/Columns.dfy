/** The searchable tables' indexes as the embedded engines keep them (`columns.rs`): entries of
    their own, written with each record, and a query a range of them. */
module Columns {
  import opened Wrappers
  import opened Encoding

  type Column = string

  type Row = map<Column, Value>

  datatype Record = Record(id: nat, row: Row)

  datatype Index = Index(number: nat, columns: seq<Column>, only: Option<Column>)

  /** `created` is set when a record is first written, and kept; `updated` each time. `named` are
      the columns that with its identifier tell a record from every other of the table, and that
      each of its indexes is of: none where its identifier is its key, its queue for an entry of
      a queue, its Stream for a Stream an audit record carries. */
  datatype Table = Table(
    kinds: map<Column, Kind>, indexes: seq<Index>, created: Option<Column>, updated: Option<Column>, named: seq<Column>)

  /** Each value is of its column's kind and width, and the identifier of its own. */
  predicate RecordOk(t: Table, r: Record) {
    && r.id < Pow256(16)
    && forall c | c in r.row :: InWidth(r.row[c]) && c in t.kinds && t.kinds[c] == KindOf(r.row[c])
  }

  predicate TableOk(t: Table) {
    && (forall i | 0 <= i < |t.indexes| :: t.indexes[i].number < 256)
    && (forall i, j | 0 <= i < j < |t.indexes| :: t.indexes[i].number != t.indexes[j].number)
    && (t.created.Some? ==> t.created.value in t.kinds && t.kinds[t.created.value] == ATime && t.created.value !in t.named)
    && (t.updated.Some? ==> t.updated.value in t.kinds && t.kinds[t.updated.value] == ATime && t.updated.value !in t.named)
    && (forall i, c | 0 <= i < |t.indexes| && c in t.named :: c in t.indexes[i].columns)
  }

  // ---- The entries a record has. ----

  /** None of an index whose column it lacks, or whose flag it does not have. */
  predicate Belongs(index: Index, row: Row) {
    && (index.only.Some? ==> index.only.value in row && row[index.only.value] == Flag(true))
    && forall i | 0 <= i < |index.columns| :: index.columns[i] in row
  }

  function ValuesOf(index: Index, row: Row): (values: seq<Value>)
    requires Belongs(index, row)
  {
    seq(|index.columns|, i requires 0 <= i < |index.columns| => row[index.columns[i]])
  }

  lemma ValuesFit(t: Table, index: Index, r: Record)
    requires RecordOk(t, r) && Belongs(index, r.row)
    ensures AllInWidth(ValuesOf(index, r.row))
  {
  }

  function KeyOf(t: Table, index: Index, r: Record): Bytes
    requires RecordOk(t, r) && Belongs(index, r.row)
  {
    ValuesFit(t, index, r);
    [index.number] + EncodedAll(ValuesOf(index, r.row)) + BigEndian(r.id, 16)
  }

  function KeysOf(t: Table, r: Record): set<Bytes>
    requires RecordOk(t, r)
  {
    set i | 0 <= i < |t.indexes| && Belongs(t.indexes[i], r.row) :: KeyOf(t, t.indexes[i], r)
  }

  lemma OneMore(values: seq<Value>, value: Value)
    requires AllInWidth(values) && InWidth(value)
    ensures AllInWidth(values + [value]) && EncodedAll(values + [value]) == EncodedAll(values) + Encoded(value)
  {
    EncodedAppends(values, [value]);
    assert EncodedAll([value]) == Encoded(value) + EncodedAll([]);
  }

  lemma ColumnFits(t: Table, r: Record, c: Column)
    requires RecordOk(t, r) && c in r.row
    ensures InWidth(r.row[c])
  {
  }

  /** The columns of one index read on, each value's encoding put after those before it. */
  method KeyIn(t: Table, index: Index, r: Record) returns (key: Option<Bytes>)
    requires RecordOk(t, r)
    ensures key.Some? <==> Belongs(index, r.row)
    ensures key.Some? ==> key.value == KeyOf(t, index, r)
  {
    hide Encoded, EncodedAll, BigEndian, Pow256, AreBytes, InWidth, RecordOk;
    if index.only.Some? && (index.only.value !in r.row || r.row[index.only.value] != Flag(true)) {
      return None;
    }
    var bytes := [index.number];
    ghost var values: seq<Value> := [];
    assert EncodedAll([]) == [] by { NoneEncoded(); }
    for i := 0 to |index.columns|
      invariant forall j | 0 <= j < i :: index.columns[j] in r.row
      invariant |values| == i && forall j | 0 <= j < i :: values[j] == r.row[index.columns[j]]
      invariant AllInWidth(values) && bytes == [index.number] + EncodedAll(values)
    {
      if index.columns[i] !in r.row {
        return None;
      }
      var value := r.row[index.columns[i]];
      ColumnFits(t, r, index.columns[i]);
      OneMore(values, value);
      values := values + [value];
      bytes := bytes + Encoded(value);
    }
    assert values == ValuesOf(index, r.row);
    return Some(bytes + BigEndian(r.id, 16));
  }

  lemma NoneEncoded()
    ensures EncodedAll([]) == []
  {
  }

  method EntriesOf(t: Table, r: Record) returns (keys: seq<Bytes>)
    requires RecordOk(t, r)
    ensures forall key :: key in keys <==> key in KeysOf(t, r)
  {
    keys := [];
    for n := 0 to |t.indexes|
      invariant forall key | key in keys :: key in KeysOf(t, r)
      invariant forall i | 0 <= i < n && Belongs(t.indexes[i], r.row) :: KeyOf(t, t.indexes[i], r) in keys
    {
      var key := KeyIn(t, t.indexes[n], r);
      if key.Some? {
        keys := keys + [key.value];
      }
    }
  }

  // ---- The entries written with a batch of records. ----

  /** Where a record is kept: its kind, and its key there. */
  datatype Place = Place(kind: nat, key: seq<nat>)

  type Store = map<Place, Record>

  type Tables = map<nat, Table>

  type IndexStore = map<Bytes, nat>

  datatype Change = Change(place: Place, value: Option<Record>)

  datatype IndexChange = IndexChange(key: Bytes, id: Option<nat>)

  predicate Searched(tables: Tables, place: Place) {
    place.kind in tables
  }

  /** The records of the searchable tables, each as its table's columns are. */
  ghost predicate StoreOk(tables: Tables, store: Store) {
    forall place | place in store && Searched(tables, place) :: RecordOk(tables[place.kind], store[place])
  }

  ghost predicate TablesOk(tables: Tables) {
    && (forall kind | kind in tables :: TableOk(tables[kind]))
    && forall a, b, i, j | a in tables && b in tables && a != b
         && 0 <= i < |tables[a].indexes| && 0 <= j < |tables[b].indexes| ::
         tables[a].indexes[i].number != tables[b].indexes[j].number
  }

  /** The record's times set on Xmip Storage's clock. */
  function Stamped(t: Table, r: Record, before: Option<Record>, now: nat): Record {
    var first := if t.created.None? then r.row
                 else if before.Some? && t.created.value in before.value.row
                 then r.row[t.created.value := before.value.row[t.created.value]]
                 else r.row[t.created.value := Time(now)];
    Record(r.id, if t.updated.None? then first else first[t.updated.value := Time(now)])
  }

  function Read(store: Store, place: Place): Option<Record> {
    if place in store then Some(store[place]) else None
  }

  function WithChange(store: Store, place: Place, value: Option<Record>): Store {
    match value
    case Some(record) => store[place := record]
    case None => store - {place}
  }

  /** What a change leaves, its record stamped. */
  function Kept(tables: Tables, store: Store, change: Change, now: nat): Option<Record> {
    if change.value.Some? && Searched(tables, change.place)
    then Some(Stamped(tables[change.place.kind], change.value.value, Read(store, change.place), now))
    else change.value
  }

  function After(tables: Tables, store: Store, changes: seq<Change>, now: nat): Store
    decreases |changes|
  {
    if changes == [] then store
    else After(tables, WithChange(store, changes[0].place, Kept(tables, store, changes[0], now)), changes[1..], now)
  }

  ghost predicate ChangesOk(tables: Tables, changes: seq<Change>) {
    forall change | change in changes && change.value.Some? && Searched(tables, change.place) ::
      RecordOk(tables[change.place.kind], change.value.value)
  }

  function Applied(index: IndexStore, entries: seq<IndexChange>): IndexStore
    decreases |entries|
  {
    if entries == [] then index
    else
      var first := entries[0];
      Applied(if first.id.Some? then index[first.key := first.id.value] else index - {first.key}, entries[1..])
  }

  lemma {:induction false} AppliedParts(index: IndexStore, first: seq<IndexChange>, rest: seq<IndexChange>)
    ensures Applied(index, first + rest) == Applied(Applied(index, first), rest)
    decreases |first|
  {
    if first == [] {
      assert first + rest == rest;
    } else {
      assert (first + rest)[0] == first[0] && (first + rest)[1..] == first[1..] + rest;
      var one := first[0];
      AppliedParts(if one.id.Some? then index[one.key := one.id.value] else index - {one.key}, first[1..], rest);
    }
  }

  /** The record's own entry: under its table's key, naming it. */
  ghost predicate OwnEntry(tables: Tables, store: Store, place: Place, key: Bytes, id: nat)
    requires StoreOk(tables, store)
  {
    place in store && Searched(tables, place) && key in KeysOf(tables[place.kind], store[place]) && id == store[place].id
  }

  ghost predicate NoStray(tables: Tables, store: Store, index: IndexStore)
    requires StoreOk(tables, store)
  {
    forall key | key in index :: exists place :: OwnEntry(tables, store, place, key, index[key])
  }

  ghost predicate AllThere(tables: Tables, store: Store, index: IndexStore)
    requires StoreOk(tables, store)
  {
    forall place, key | place in store && Searched(tables, place) && key in KeysOf(tables[place.kind], store[place]) ::
      key in index && index[key] == store[place].id
  }

  /** The index holds the entries of the records there are, and no other. */
  ghost predicate Exact(tables: Tables, store: Store, index: IndexStore)
    requires StoreOk(tables, store)
  {
    NoStray(tables, store, index) && AllThere(tables, store, index)
  }

  /** The entries of one record, gone or kept. */
  function Marked(keys: seq<Bytes>, id: Option<nat>): seq<IndexChange> {
    seq(|keys|, i requires 0 <= i < |keys| => IndexChange(keys[i], id))
  }

  lemma InList(keys: seq<Bytes>, key: Bytes)
    requires keys != []
    ensures key in keys <==> key == keys[0] || key in keys[1..]
  {
    assert keys == [keys[0]] + keys[1..];
  }

  function MarkedOne(index: IndexStore, key: Bytes, id: Option<nat>): IndexStore {
    if id.Some? then index[key := id.value] else index - {key}
  }

  lemma MarkedFirst(index: IndexStore, keys: seq<Bytes>, id: Option<nat>)
    requires keys != []
    ensures Applied(index, Marked(keys, id)) == Applied(MarkedOne(index, keys[0], id), Marked(keys[1..], id))
  {
    assert Marked(keys, id)[1..] == Marked(keys[1..], id) && Marked(keys, id)[0] == IndexChange(keys[0], id);
  }

  lemma {:induction false} AppliedMarked(index: IndexStore, keys: seq<Bytes>, id: Option<nat>, key: Bytes)
    ensures var after := Applied(index, Marked(keys, id));
            && (key in keys ==> if id.Some? then key in after && after[key] == id.value else key !in after)
            && (key !in keys ==> (key in after <==> key in index) && (key in after ==> after[key] == index[key]))
    decreases |keys|
  {
    if keys != [] {
      MarkedFirst(index, keys, id);
      AppliedMarked(MarkedOne(index, keys[0], id), keys[1..], id, key);
      InList(keys, key);
    }
  }

  /** The entries a record's place has. */
  ghost function EntriesAt(tables: Tables, place: Place, value: Option<Record>): set<Bytes>
    requires value.Some? && Searched(tables, place) ==> RecordOk(tables[place.kind], value.value)
  {
    if value.Some? && Searched(tables, place) then KeysOf(tables[place.kind], value.value) else {}
  }

  /** No other record has an entry that the change takes out and does not put back. */
  ghost predicate Alone(tables: Tables, store: Store, place: Place, value: Option<Record>)
    requires StoreOk(tables, store)
    requires value.Some? && Searched(tables, place) ==> RecordOk(tables[place.kind], value.value)
  {
    forall other | other in store && other != place && Searched(tables, other) ::
      forall key | key in KeysOf(tables[other.kind], store[other]) ::
        key in EntriesAt(tables, place, Read(store, place)) ==> key in EntriesAt(tables, place, value)
  }

  lemma StampedOk(t: Table, r: Record, before: Option<Record>, now: nat)
    requires TableOk(t) && RecordOk(t, r) && now < Pow256(8) && (before.Some? ==> RecordOk(t, before.value))
    ensures RecordOk(t, Stamped(t, r, before, now)) && Stamped(t, r, before, now).id == r.id
  {
    hide Pow256;
    var stamped := Stamped(t, r, before, now);
    forall c | c in stamped.row
      ensures InWidth(stamped.row[c]) && c in t.kinds && t.kinds[c] == KindOf(stamped.row[c])
    {
    }
  }

  /** The index once a record's entries gone are taken out, and those it has now put in. */
  function Swapped(index: IndexStore, gone: seq<Bytes>, kept: seq<Bytes>, id: Option<nat>): IndexStore {
    Applied(Applied(index, Marked(gone, None)), Marked(kept, id))
  }

  lemma SwappedAt(index: IndexStore, gone: seq<Bytes>, kept: seq<Bytes>, id: Option<nat>, key: Bytes)
    requires id.None? ==> kept == []
    ensures var now := Swapped(index, gone, kept, id);
            && (key in now <==> key in kept || (key in index && key !in gone))
            && (key in kept ==> now[key] == id.value)
            && (key in now && key !in kept ==> now[key] == index[key])
  {
    AppliedMarked(index, gone, None, key);
    AppliedMarked(Applied(index, Marked(gone, None)), kept, id, key);
  }

  function IdOf(value: Option<Record>): Option<nat> {
    if value.Some? then Some(value.value.id) else None
  }

  /** `gone` and `kept` list the entries the place had, and has with `value`. */
  ghost predicate Listed(tables: Tables, store: Store, place: Place, value: Option<Record>, gone: seq<Bytes>, kept: seq<Bytes>)
    requires StoreOk(tables, store)
    requires value.Some? && Searched(tables, place) ==> RecordOk(tables[place.kind], value.value)
  {
    && (forall key :: key in gone <==> key in EntriesAt(tables, place, Read(store, place)))
    && (forall key :: key in kept <==> key in EntriesAt(tables, place, value))
  }

  lemma ListedNone(tables: Tables, store: Store, place: Place, value: Option<Record>, gone: seq<Bytes>, kept: seq<Bytes>)
    requires StoreOk(tables, store)
    requires value.Some? && Searched(tables, place) ==> RecordOk(tables[place.kind], value.value)
    requires Listed(tables, store, place, value, gone, kept)
    ensures IdOf(value).None? ==> kept == []
  {
    if kept != [] {
      assert kept[0] in kept;
    }
  }

  lemma SwappedNoStray(tables: Tables, store: Store, index: IndexStore, place: Place, value: Option<Record>,
                       gone: seq<Bytes>, kept: seq<Bytes>)
    requires StoreOk(tables, store) && Exact(tables, store, index)
    requires value.Some? && Searched(tables, place) ==> RecordOk(tables[place.kind], value.value)
    requires Listed(tables, store, place, value, gone, kept)
    ensures StoreOk(tables, WithChange(store, place, value))
    ensures NoStray(tables, WithChange(store, place, value), Swapped(index, gone, kept, IdOf(value)))
  {
    hide Applied, KeysOf, RecordOk, Swapped, AllThere;
    var after, now := WithChange(store, place, value), Swapped(index, gone, kept, IdOf(value));
    ListedNone(tables, store, place, value, gone, kept);
    forall key | key in now ensures exists p :: OwnEntry(tables, after, p, key, now[key]) {
      SwappedAt(index, gone, kept, IdOf(value), key);
      if key in kept {
        assert OwnEntry(tables, after, place, key, now[key]);
      } else {
        assert NoStray(tables, store, index);
        var p :| OwnEntry(tables, store, p, key, index[key]);
        assert OwnEntry(tables, after, p, key, now[key]);
      }
    }
  }

  lemma SwappedAllThere(tables: Tables, store: Store, index: IndexStore, place: Place, value: Option<Record>,
                        gone: seq<Bytes>, kept: seq<Bytes>)
    requires StoreOk(tables, store) && Exact(tables, store, index)
    requires value.Some? && Searched(tables, place) ==> RecordOk(tables[place.kind], value.value)
    requires Listed(tables, store, place, value, gone, kept) && Alone(tables, store, place, value)
    ensures StoreOk(tables, WithChange(store, place, value))
    ensures AllThere(tables, WithChange(store, place, value), Swapped(index, gone, kept, IdOf(value)))
  {
    hide Applied, Swapped, NoStray, KeysOf, RecordOk, Listed, Alone, AllThere;
    var after, now := WithChange(store, place, value), Swapped(index, gone, kept, IdOf(value));
    assert StoreOk(tables, after);
    forall p, key | p in after && Searched(tables, p) && key in KeysOf(tables[p.kind], after[p])
      ensures key in now && now[key] == after[p].id
    {
      SwappedHas(tables, store, index, place, value, gone, kept, p, key);
    }
    HasAll(tables, after, now);
  }

  lemma HasAll(tables: Tables, store: Store, index: IndexStore)
    requires StoreOk(tables, store)
    requires forall p, key | p in store && Searched(tables, p) && key in KeysOf(tables[p.kind], store[p]) ::
        key in index && index[key] == store[p].id
    ensures AllThere(tables, store, index)
  {
  }

  lemma SwappedHas(tables: Tables, store: Store, index: IndexStore, place: Place, value: Option<Record>,
                   gone: seq<Bytes>, kept: seq<Bytes>, p: Place, key: Bytes)
    requires StoreOk(tables, store) && Exact(tables, store, index)
    requires value.Some? && Searched(tables, place) ==> RecordOk(tables[place.kind], value.value)
    requires Listed(tables, store, place, value, gone, kept) && Alone(tables, store, place, value)
    requires StoreOk(tables, WithChange(store, place, value))
    requires p in WithChange(store, place, value) && Searched(tables, p)
    requires key in KeysOf(tables[p.kind], WithChange(store, place, value)[p])
    ensures var now := Swapped(index, gone, kept, IdOf(value));
            key in now && now[key] == WithChange(store, place, value)[p].id
  {
    hide Applied, Swapped, NoStray, KeysOf;
    ListedNone(tables, store, place, value, gone, kept);
    SwappedAt(index, gone, kept, IdOf(value), key);
    if p == place {
      assert key in EntriesAt(tables, place, value);
    } else {
      assert key in index && index[key] == store[p].id;
      assert key in gone ==> key in kept;
      if key in kept {
        SameName(tables[p.kind], store[p], tables[place.kind], value.value, key);
      }
    }
  }

  lemma SwappedNotThere(tables: Tables, store: Store, index: IndexStore, place: Place, value: Option<Record>,
                        gone: seq<Bytes>, kept: seq<Bytes>)
    requires StoreOk(tables, store) && Exact(tables, store, index)
    requires value.Some? && Searched(tables, place) ==> RecordOk(tables[place.kind], value.value)
    requires Listed(tables, store, place, value, gone, kept) && !Alone(tables, store, place, value)
    ensures StoreOk(tables, WithChange(store, place, value))
    ensures !AllThere(tables, WithChange(store, place, value), Swapped(index, gone, kept, IdOf(value)))
  {
    hide Applied, Swapped, NoStray, AllThere;
    var after, now := WithChange(store, place, value), Swapped(index, gone, kept, IdOf(value));
    ListedNone(tables, store, place, value, gone, kept);
    var other, key :| other in store && other != place && Searched(tables, other)
      && key in KeysOf(tables[other.kind], store[other])
      && key in EntriesAt(tables, place, Read(store, place)) && key !in EntriesAt(tables, place, value);
    SwappedAt(index, gone, kept, IdOf(value), key);
    assert key !in now && other in after && key in KeysOf(tables[other.kind], after[other]);
    LacksOne(tables, after, now, other, key);
  }

  lemma LacksOne(tables: Tables, store: Store, index: IndexStore, place: Place, key: Bytes)
    requires StoreOk(tables, store) && place in store && Searched(tables, place)
    requires key in KeysOf(tables[place.kind], store[place]) && key !in index
    ensures !AllThere(tables, store, index)
  {
  }

  lemma KeyNames(t: Table, r: Record, key: Bytes)
    requires RecordOk(t, r) && key in KeysOf(t, r)
    ensures |key| >= 16 && key[|key| - 16..] == BigEndian(r.id, 16)
  {
  }

  /** Records that share an entry have one identifier: the key ends with it. */
  lemma SameName(t: Table, r: Record, u: Table, s: Record, key: Bytes)
    requires RecordOk(t, r) && RecordOk(u, s) && key in KeysOf(t, r) && key in KeysOf(u, s)
    ensures r.id == s.id
  {
    hide KeysOf;
    KeyNames(t, r, key);
    KeyNames(u, s, key);
    BigEndianSorts(r.id, s.id, 16);
  }

  /** The index is exact after one record's entries are replaced where, and only where, no
      other record has one of those gone for good. */
  lemma ReplacedExact(tables: Tables, store: Store, index: IndexStore, place: Place, value: Option<Record>,
                      gone: seq<Bytes>, kept: seq<Bytes>)
    requires StoreOk(tables, store) && Exact(tables, store, index)
    requires value.Some? && Searched(tables, place) ==> RecordOk(tables[place.kind], value.value)
    requires Listed(tables, store, place, value, gone, kept)
    ensures StoreOk(tables, WithChange(store, place, value))
    ensures Exact(tables, WithChange(store, place, value), Swapped(index, gone, kept, IdOf(value)))
       <==> Alone(tables, store, place, value)
  {
    hide Alone, Listed, NoStray, AllThere, Swapped, KeysOf;
    SwappedNoStray(tables, store, index, place, value, gone, kept);
    if Alone(tables, store, place, value) {
      SwappedAllThere(tables, store, index, place, value, gone, kept);
    } else {
      SwappedNotThere(tables, store, index, place, value, gone, kept);
    }
  }

  lemma KeyNumber(t: Table, r: Record, key: Bytes) returns (i: nat)
    requires RecordOk(t, r) && key in KeysOf(t, r)
    ensures i < |t.indexes| && Belongs(t.indexes[i], r.row) && key == KeyOf(t, t.indexes[i], r)
    ensures key != [] && key[0] == t.indexes[i].number
  {
    i :| 0 <= i < |t.indexes| && Belongs(t.indexes[i], r.row) && key == KeyOf(t, t.indexes[i], r);
  }

  /** One record's names are another's: a table has no two such. */
  predicate SameNames(t: Table, r: Record, s: Record) {
    r.id == s.id && forall c | c in t.named :: c in r.row && c in s.row && r.row[c] == s.row[c]
  }

  /** Records of a table that share an entry are named alike: each index is of all they are
      named by. */
  lemma SharedIsNamed(t: Table, r: Record, s: Record, key: Bytes)
    requires TableOk(t) && RecordOk(t, r) && RecordOk(t, s) && key in KeysOf(t, r) && key in KeysOf(t, s)
    ensures SameNames(t, r, s)
  {
    hide KeysOf, Encoded, EncodedAll, BigEndian, Pow256, InWidth;
    SameName(t, r, t, s, key);
    var i := KeyNumber(t, r, key);
    var j := KeyNumber(t, s, key);
    assert i == j;
    var index := t.indexes[i];
    ValuesFit(t, index, r);
    ValuesFit(t, index, s);
    var mine, others := ValuesOf(index, r.row), ValuesOf(index, s.row);
    assert SameKinds(mine, others);
    assert key[1..] == EncodedAll(mine) + BigEndian(r.id, 16) && key[1..] == EncodedAll(others) + BigEndian(s.id, 16);
    EncodedAllEnds(mine, others, BigEndian(r.id, 16), BigEndian(s.id, 16));
    forall c | c in t.named ensures c in r.row && c in s.row && r.row[c] == s.row[c] {
      var n :| 0 <= n < |index.columns| && index.columns[n] == c;
      assert mine[n] == r.row[c] && others[n] == s.row[c];
    }
  }

  /** No two records of a table are named alike. */
  ghost predicate OwnNames(tables: Tables, store: Store) {
    forall a, b | a in store && b in store && a != b && Searched(tables, a) && a.kind == b.kind ::
      !SameNames(tables[a.kind], store[a], store[b])
  }

  /** Then no record ever gives up an entry another has. */
  lemma OwnNamesAlone(tables: Tables, store: Store, place: Place, value: Option<Record>)
    requires TablesOk(tables) && StoreOk(tables, store) && OwnNames(tables, store)
    requires value.Some? && Searched(tables, place) ==> RecordOk(tables[place.kind], value.value)
    ensures Alone(tables, store, place, value)
  {
    hide KeysOf, SameNames;
    forall other, key | other in store && other != place && Searched(tables, other)
      && key in KeysOf(tables[other.kind], store[other]) && key in EntriesAt(tables, place, Read(store, place))
      ensures false
    {
      if other.kind == place.kind {
        SharedIsNamed(tables[other.kind], store[other], store[place], key);
      } else {
        var i := KeyNumber(tables[other.kind], store[other], key);
        var j := KeyNumber(tables[place.kind], store[place], key);
      }
    }
  }

  // ---- The index after a batch, and after every batch. ----

  lemma KeptOk(tables: Tables, store: Store, changes: seq<Change>, now: nat)
    requires TablesOk(tables) && StoreOk(tables, store) && ChangesOk(tables, changes) && now < Pow256(8) && changes != []
    ensures var kept := Kept(tables, store, changes[0], now); var place := changes[0].place;
            && (kept.Some? && Searched(tables, place) ==> RecordOk(tables[place.kind], kept.value))
            && StoreOk(tables, WithChange(store, place, kept))
            && ChangesOk(tables, changes[1..])
  {
    var change := changes[0];
    assert change in changes;
    if change.value.Some? && Searched(tables, change.place) {
      StampedOk(tables[change.place.kind], change.value.value, Read(store, change.place), now);
    }
  }

  /** The index once the entries of what a place had are gone, and those of what it has put in. */
  ghost function Reindexed(tables: Tables, index: IndexStore, place: Place, before: Option<Record>, value: Option<Record>): IndexStore
    requires before.Some? && Searched(tables, place) ==> RecordOk(tables[place.kind], before.value)
    requires value.Some? && Searched(tables, place) ==> RecordOk(tables[place.kind], value.value)
  {
    (index - EntriesAt(tables, place, before))
    + map key | key in EntriesAt(tables, place, value) :: value.value.id
  }

  lemma SwappedIs(tables: Tables, index: IndexStore, place: Place, before: Option<Record>, value: Option<Record>,
                  gone: seq<Bytes>, kept: seq<Bytes>)
    requires before.Some? && Searched(tables, place) ==> RecordOk(tables[place.kind], before.value)
    requires value.Some? && Searched(tables, place) ==> RecordOk(tables[place.kind], value.value)
    requires forall key :: key in gone <==> key in EntriesAt(tables, place, before)
    requires forall key :: key in kept <==> key in EntriesAt(tables, place, value)
    ensures Swapped(index, gone, kept, IdOf(value)) == Reindexed(tables, index, place, before, value)
  {
    hide KeysOf, RecordOk, Swapped;
    var now, meant := Swapped(index, gone, kept, IdOf(value)), Reindexed(tables, index, place, before, value);
    assert IdOf(value).None? ==> kept == [] by {
      if kept != [] { assert kept[0] in kept; }
    }
    forall key ensures (key in now <==> key in meant) && (key in now ==> now[key] == meant[key]) {
      SwappedAt(index, gone, kept, IdOf(value), key);
    }
  }

  /** The index after every change of a batch in turn. */
  ghost function IndexAfter(tables: Tables, store: Store, index: IndexStore, changes: seq<Change>, now: nat): IndexStore
    requires TablesOk(tables) && StoreOk(tables, store) && ChangesOk(tables, changes) && now < Pow256(8)
    decreases |changes|
  {
    if changes == [] then index
    else
      var place := changes[0].place;
      var kept := Kept(tables, store, changes[0], now);
      KeptOk(tables, store, changes, now);
      IndexAfter(tables, WithChange(store, place, kept), Reindexed(tables, index, place, Read(store, place), kept), changes[1..], now)
  }

  /** One change's entries: those of the record it replaces gone, those of the record it keeps
      put in. */
  method EntriesFor(tables: Tables, before: Option<Record>, place: Place, value: Option<Record>)
    returns (gone: seq<Bytes>, kept: seq<Bytes>)
    requires Searched(tables, place) ==> (before.Some? ==> RecordOk(tables[place.kind], before.value))
    requires Searched(tables, place) ==> (value.Some? ==> RecordOk(tables[place.kind], value.value))
    ensures forall key :: key in gone <==> key in EntriesAt(tables, place, before)
    ensures forall key :: key in kept <==> key in EntriesAt(tables, place, value)
  {
    gone, kept := [], [];
    if Searched(tables, place) {
      if before.Some? {
        gone := EntriesOf(tables[place.kind], before.value);
      }
      if value.Some? {
        kept := EntriesOf(tables[place.kind], value.value);
      }
    }
  }

  /** A batch's records stamped, and the index entries that go with them, in the same write. */
  method Written(tables: Tables, store: Store, ghost index: IndexStore, changes: seq<Change>, now: nat)
    returns (written: seq<Change>, entries: seq<IndexChange>)
    requires TablesOk(tables) && StoreOk(tables, store) && ChangesOk(tables, changes) && now < Pow256(8)
    ensures Applied(index, entries) == IndexAfter(tables, store, index, changes, now)
    ensures |written| == |changes| && forall i | 0 <= i < |written| :: written[i].place == changes[i].place
    ensures Wrote(store, written) == After(tables, store, changes, now)
  {
    hide KeysOf, StoreOk, ChangesOk, TablesOk, Pow256, Kept, WithChange, EntriesAt, Reindexed;
    written, entries := [], [];
    // What this batch has left at each place it wrote, over what the store holds.
    var latest := store;
    assert changes[0..] == changes;
    for i := 0 to |changes|
      invariant |written| == i && forall j | 0 <= j < i :: written[j].place == changes[j].place
      invariant latest == Wrote(store, written)
      invariant StoreOk(tables, latest) && ChangesOk(tables, changes[i..])
      invariant After(tables, latest, changes[i..], now) == After(tables, store, changes, now)
      invariant IndexAfter(tables, latest, Applied(index, entries), changes[i..], now) == IndexAfter(tables, store, index, changes, now)
    {
      ghost var rest := changes[i..];
      assert rest[0] == changes[i] && rest[1..] == changes[i + 1..];
      var place := changes[i].place;
      var value := Kept(tables, latest, changes[i], now);
      KeptOk(tables, latest, rest, now);
      StoredOk(tables, latest, place);
      var gone, kept := EntriesFor(tables, Read(latest, place), place, value);
      SwappedIs(tables, Applied(index, entries), place, Read(latest, place), value, gone, kept);
      Appends(index, entries, gone, kept, IdOf(value));
      entries := entries + Marked(gone, None) + Marked(kept, IdOf(value));
      latest := WithChange(latest, place, value);
      assert (written + [Change(place, value)])[..i] == written;
      written := written + [Change(place, value)];
    }
    assert changes[|changes|..] == [];
  }

  /** The store once changes, stamped already, are written. */
  function Wrote(store: Store, changes: seq<Change>): Store {
    if changes == [] then store
    else
      var last := changes[|changes| - 1];
      WithChange(Wrote(store, changes[..|changes| - 1]), last.place, last.value)
  }

  lemma StoredOk(tables: Tables, store: Store, place: Place)
    requires StoreOk(tables, store)
    ensures Searched(tables, place) ==> (place in store ==> RecordOk(tables[place.kind], store[place]))
  {
  }

  lemma Appends(index: IndexStore, entries: seq<IndexChange>, gone: seq<Bytes>, kept: seq<Bytes>, id: Option<nat>)
    ensures Applied(index, entries + Marked(gone, None) + Marked(kept, id))
         == Swapped(Applied(index, entries), gone, kept, id)
  {
    AppliedParts(index, entries + Marked(gone, None), Marked(kept, id));
    AppliedParts(index, entries, Marked(gone, None));
  }

  /** A change puts no record named as another the store holds is. */
  ghost predicate NamesNew(tables: Tables, store: Store, change: Change) {
    change.value.Some? && Searched(tables, change.place) ==>
      forall other | other in store && other != change.place && other.kind == change.place.kind ::
        !SameNames(tables[other.kind], store[other], change.value.value)
  }

  /** So of each change of a batch in turn. */
  ghost predicate AllNamesNew(tables: Tables, store: Store, changes: seq<Change>, now: nat)
    decreases |changes|
  {
    changes == []
    || (NamesNew(tables, store, changes[0])
        && AllNamesNew(tables, WithChange(store, changes[0].place, Kept(tables, store, changes[0], now)), changes[1..], now))
  }

  lemma StampedNames(t: Table, r: Record, before: Option<Record>, now: nat, other: Record)
    requires TableOk(t)
    ensures SameNames(t, other, Stamped(t, r, before, now)) ==> SameNames(t, other, r)
  {
  }

  lemma NamesKept(tables: Tables, store: Store, change: Change, now: nat)
    requires TablesOk(tables) && OwnNames(tables, store) && NamesNew(tables, store, change)
    ensures OwnNames(tables, WithChange(store, change.place, Kept(tables, store, change, now)))
  {
    hide SameNames;
    var after := WithChange(store, change.place, Kept(tables, store, change, now));
    forall a, b | a in after && b in after && a != b && Searched(tables, a) && a.kind == b.kind
      ensures !SameNames(tables[a.kind], after[a], after[b])
    {
      var t := tables[a.kind];
      if a == change.place {
        StampedNames(t, change.value.value, Read(store, a), now, after[b]);
        NamedBoth(t, after[a], after[b]);
      } else if b == change.place {
        StampedNames(t, change.value.value, Read(store, b), now, after[a]);
      }
    }
  }

  lemma NamedBoth(t: Table, r: Record, s: Record)
    ensures SameNames(t, r, s) <==> SameNames(t, s, r)
  {
  }

  /** A batch leaves the index exact, whatever replaces whatever within it. */
  lemma {:induction false} WrittenExact(tables: Tables, store: Store, index: IndexStore, changes: seq<Change>, now: nat)
    requires TablesOk(tables) && StoreOk(tables, store) && ChangesOk(tables, changes) && now < Pow256(8)
    requires Exact(tables, store, index) && OwnNames(tables, store) && AllNamesNew(tables, store, changes, now)
    ensures var after := After(tables, store, changes, now);
            && StoreOk(tables, after) && OwnNames(tables, after)
            && Exact(tables, after, IndexAfter(tables, store, index, changes, now))
    decreases |changes|
  {
    hide Exact, KeysOf, StoreOk, ChangesOk, TablesOk, Pow256, Kept, WithChange, EntriesAt, Reindexed, OwnNames, Alone, NamesNew;
    if changes != [] {
      var place := changes[0].place;
      var value := Kept(tables, store, changes[0], now);
      KeptOk(tables, store, changes, now);
      StoredOk(tables, store, place);
      var before := Read(store, place);
      OneExact(tables, store, index, place, value);
      NamesKept(tables, store, changes[0], now);
      WrittenExact(tables, WithChange(store, place, value), Reindexed(tables, index, place, before, value), changes[1..], now);
    }
  }

  lemma OneExact(tables: Tables, store: Store, index: IndexStore, place: Place, value: Option<Record>)
    requires TablesOk(tables) && StoreOk(tables, store) && OwnNames(tables, store) && Exact(tables, store, index)
    requires value.Some? && Searched(tables, place) ==> RecordOk(tables[place.kind], value.value)
    ensures StoreOk(tables, WithChange(store, place, value))
    ensures Read(store, place).Some? && Searched(tables, place) ==> RecordOk(tables[place.kind], store[place])
    ensures Exact(tables, WithChange(store, place, value), Reindexed(tables, index, place, Read(store, place), value))
  {
    hide Exact, KeysOf, RecordOk, Reindexed, Swapped, Alone;
    var gone := ListOf(EntriesAt(tables, place, Read(store, place)));
    var kept := ListOf(EntriesAt(tables, place, value));
    OwnNamesAlone(tables, store, place, value);
    SwappedIs(tables, index, place, Read(store, place), value, gone, kept);
    ReplacedExact(tables, store, index, place, value, gone, kept);
  }

  lemma {:induction false} ListOf(keys: set<Bytes>) returns (list: seq<Bytes>)
    ensures forall key :: key in list <==> key in keys
    decreases keys
  {
    if keys == {} {
      list := [];
    } else {
      var one :| one in keys;
      var rest := ListOf(keys - {one});
      list := [one] + rest;
    }
  }

  datatype WriteBatch = WriteBatch(changes: seq<Change>, now: nat)

  ghost predicate BatchesOk(tables: Tables, batches: seq<WriteBatch>) {
    forall batch | batch in batches :: ChangesOk(tables, batch.changes) && batch.now < Pow256(8)
  }

  /** The store and its index after every batch in turn. */
  ghost function AllAfter(tables: Tables, store: Store, index: IndexStore, batches: seq<WriteBatch>): (Store, IndexStore)
    requires TablesOk(tables) && StoreOk(tables, store) && BatchesOk(tables, batches)
    decreases |batches|
  {
    if batches == [] then (store, index)
    else
      var one := batches[0];
      StaysOk(tables, store, one.changes, one.now);
      AllAfter(tables, After(tables, store, one.changes, one.now),
               IndexAfter(tables, store, index, one.changes, one.now), batches[1..])
  }

  lemma {:induction false} StaysOk(tables: Tables, store: Store, changes: seq<Change>, now: nat)
    requires TablesOk(tables) && StoreOk(tables, store) && ChangesOk(tables, changes) && now < Pow256(8)
    ensures StoreOk(tables, After(tables, store, changes, now))
    decreases |changes|
  {
    if changes != [] {
      KeptOk(tables, store, changes, now);
      StaysOk(tables, WithChange(store, changes[0].place, Kept(tables, store, changes[0], now)), changes[1..], now);
    }
  }

  // ---- When a record was first written, and last. ----

  /** The changes write a record at `place` once at least, and never take one out of it. */
  predicate WritesAt(changes: seq<Change>, place: Place) {
    && (exists i | 0 <= i < |changes| :: changes[i].place == place)
    && forall i | 0 <= i < |changes| && changes[i].place == place :: changes[i].value.Some?
  }

  /** Its time of `column`, where it has one. */
  function TimeOf(store: Store, place: Place, column: Column): Option<Value> {
    if place in store && column in store[place].row then Some(store[place].row[column]) else None
  }

  lemma KeptTimes(tables: Tables, store: Store, change: Change, now: nat)
    requires change.value.Some? && change.place.kind in tables
    ensures var t := tables[change.place.kind];
            var after := WithChange(store, change.place, Kept(tables, store, change, now));
            && (t.created.Some? && t.created != t.updated ==>
                  TimeOf(after, change.place, t.created.value)
                  == match TimeOf(store, change.place, t.created.value) case Some(first) => Some(first) case None => Some(Time(now)))
            && (t.updated.Some? ==> TimeOf(after, change.place, t.updated.value) == Some(Time(now)))
  {
  }

  lemma OtherPlace(tables: Tables, store: Store, change: Change, now: nat, place: Place, column: Column)
    requires change.place != place
    ensures TimeOf(WithChange(store, change.place, Kept(tables, store, change, now)), place, column) == TimeOf(store, place, column)
  {
  }

  /** A batch that writes a record leaves when it was first written as it was, or now where it was
      not there, however often it writes it; and when it was last written is now. */
  lemma {:induction false} WhenWritten(tables: Tables, store: Store, changes: seq<Change>, now: nat, place: Place)
    requires place.kind in tables && WritesAt(changes, place)
    ensures var t := tables[place.kind]; var after := After(tables, store, changes, now);
            && (t.created.Some? && t.created != t.updated ==>
                  TimeOf(after, place, t.created.value)
                  == match TimeOf(store, place, t.created.value) case Some(first) => Some(first) case None => Some(Time(now)))
            && (t.updated.Some? ==> TimeOf(after, place, t.updated.value) == Some(Time(now)))
    decreases |changes|
  {
    hide Kept, WithChange, TimeOf;
    var t := tables[place.kind];
    var next := WithChange(store, changes[0].place, Kept(tables, store, changes[0], now));
    if changes[0].place == place {
      KeptTimes(tables, store, changes[0], now);
    } else {
      if t.created.Some? {
        OtherPlace(tables, store, changes[0], now, place, t.created.value);
      }
    }
    assert forall i | 0 <= i < |changes[1..]| :: changes[1..][i] == changes[i + 1];
    if exists i | 0 <= i < |changes[1..]| :: changes[1..][i].place == place {
      WhenWritten(tables, next, changes[1..], now, place);
    } else {
      assert changes[0].place == place by {
        var i :| 0 <= i < |changes| && changes[i].place == place;
        assert i > 0 ==> changes[1..][i - 1].place == place;
      }
      if t.created.Some? {
        NotWritten(tables, next, changes[1..], now, place, t.created.value);
      }
      if t.updated.Some? {
        NotWritten(tables, next, changes[1..], now, place, t.updated.value);
      }
    }
  }

  lemma {:induction false} NotWritten(tables: Tables, store: Store, changes: seq<Change>, now: nat,
                                      place: Place, column: Column)
    requires forall i | 0 <= i < |changes| :: changes[i].place != place
    ensures TimeOf(After(tables, store, changes, now), place, column) == TimeOf(store, place, column)
    decreases |changes|
  {
    hide Kept, WithChange, TimeOf;
    if changes != [] {
      OtherPlace(tables, store, changes[0], now, place, column);
      assert forall i | 0 <= i < |changes[1..]| :: changes[1..][i] == changes[i + 1];
      var next := WithChange(store, changes[0].place, Kept(tables, store, changes[0], now));
      NotWritten(tables, next, changes[1..], now, place, column);
    }
  }

  /** A record under the key it is named by: `keyed` makes a record's key of its names. */
  ghost predicate UnderOwnKey(tables: Tables, keyed: (nat, nat, seq<Value>) -> seq<nat>, place: Place, r: Record) {
    Searched(tables, place) ==>
      && (forall c | c in tables[place.kind].named :: c in r.row)
      && place.key == keyed(place.kind, r.id, NamesOf(tables[place.kind], r))
  }

  function NamesOf(t: Table, r: Record): seq<Value>
    requires forall c | c in t.named :: c in r.row
  {
    seq(|t.named|, i requires 0 <= i < |t.named| => r.row[t.named[i]])
  }

  ghost predicate StoreKeyed(tables: Tables, keyed: (nat, nat, seq<Value>) -> seq<nat>, store: Store) {
    forall place | place in store :: UnderOwnKey(tables, keyed, place, store[place])
  }

  ghost predicate ChangesKeyed(tables: Tables, keyed: (nat, nat, seq<Value>) -> seq<nat>, changes: seq<Change>) {
    forall change | change in changes && change.value.Some? :: UnderOwnKey(tables, keyed, change.place, change.value.value)
  }

  lemma AlikeUnderOneKey(tables: Tables, keyed: (nat, nat, seq<Value>) -> seq<nat>, a: Place, r: Record, b: Place, s: Record)
    requires Searched(tables, a) && a.kind == b.kind && SameNames(tables[a.kind], r, s)
    requires UnderOwnKey(tables, keyed, a, r) && UnderOwnKey(tables, keyed, b, s)
    ensures a == b
  {
    assert NamesOf(tables[a.kind], r) == NamesOf(tables[a.kind], s);
  }

  lemma KeyedOwnNames(tables: Tables, keyed: (nat, nat, seq<Value>) -> seq<nat>, store: Store)
    requires StoreKeyed(tables, keyed, store)
    ensures OwnNames(tables, store)
  {
    hide SameNames, UnderOwnKey;
    forall a, b | a in store && b in store && a != b && Searched(tables, a) && a.kind == b.kind
      ensures !SameNames(tables[a.kind], store[a], store[b])
    {
      if SameNames(tables[a.kind], store[a], store[b]) {
        AlikeUnderOneKey(tables, keyed, a, store[a], b, store[b]);
      }
    }
  }

  lemma {:induction false} KeyedNamesNew(tables: Tables, keyed: (nat, nat, seq<Value>) -> seq<nat>, store: Store, changes: seq<Change>, now: nat)
    requires TablesOk(tables) && StoreKeyed(tables, keyed, store) && ChangesKeyed(tables, keyed, changes)
    ensures AllNamesNew(tables, store, changes, now) && StoreKeyed(tables, keyed, After(tables, store, changes, now))
    decreases |changes|
  {
    if changes != [] {
      var change := changes[0];
      assert change in changes;
      var next := WithChange(store, change.place, Kept(tables, store, change, now));
      assert NamesNew(tables, store, change) by {
        if change.value.Some? && Searched(tables, change.place) {
          forall other | other in store && other != change.place && other.kind == change.place.kind
            ensures !SameNames(tables[other.kind], store[other], change.value.value)
          {
            if SameNames(tables[other.kind], store[other], change.value.value) {
              AlikeUnderOneKey(tables, keyed, other, store[other], change.place, change.value.value);
            }
          }
        }
      }
      KeptKeyed(tables, keyed, store, change, now);
      KeyedNamesNew(tables, keyed, next, changes[1..], now);
    }
  }

  lemma KeptKeyed(tables: Tables, keyed: (nat, nat, seq<Value>) -> seq<nat>, store: Store, change: Change, now: nat)
    requires TablesOk(tables) && StoreKeyed(tables, keyed, store)
    requires change.value.Some? ==> UnderOwnKey(tables, keyed, change.place, change.value.value)
    ensures StoreKeyed(tables, keyed, WithChange(store, change.place, Kept(tables, store, change, now)))
  {
    if change.value.Some? && Searched(tables, change.place) {
      var t := tables[change.place.kind];
      var kept := Kept(tables, store, change, now).value;
      assert NamesOf(t, kept) == NamesOf(t, change.value.value);
    }
  }

  /** After any batches of writes, replacements and removals of records each under the key it is
      named by, the index holds the entries of the records there are, and no other. */
  lemma {:induction false} BatchesExact(tables: Tables, keyed: (nat, nat, seq<Value>) -> seq<nat>,
                                        store: Store, index: IndexStore, batches: seq<WriteBatch>)
    requires TablesOk(tables) && StoreOk(tables, store) && BatchesOk(tables, batches)
    requires StoreKeyed(tables, keyed, store) && Exact(tables, store, index)
    requires forall batch | batch in batches :: ChangesKeyed(tables, keyed, batch.changes)
    ensures var (after, now) := AllAfter(tables, store, index, batches);
            StoreOk(tables, after) && StoreKeyed(tables, keyed, after) && Exact(tables, after, now)
    decreases |batches|
  {
    hide Exact, StoreOk, TablesOk, ChangesOk, StoreKeyed, ChangesKeyed, OwnNames, AllNamesNew, After, IndexAfter, Pow256;
    if batches != [] {
      var one := batches[0];
      assert one in batches;
      KeyedOwnNames(tables, keyed, store);
      KeyedNamesNew(tables, keyed, store, one.changes, one.now);
      StaysOk(tables, store, one.changes, one.now);
      WrittenExact(tables, store, index, one.changes, one.now);
      BatchesExact(tables, keyed, After(tables, store, one.changes, one.now),
                   IndexAfter(tables, store, index, one.changes, one.now), batches[1..]);
    }
  }

  // ---- A query: one range of an index. ----

  /** An index asked for the records whose first columns are `equal`, and whose last, where a
      span is asked, is a time in it. */
  ghost predicate Asks(t: Table, index: Index, equal: seq<Value>, span: Option<(nat, nat)>) {
    && index in t.indexes && AllInWidth(equal)
    && |index.columns| == |equal| + (if span.Some? then 1 else 0)
    && (forall i | 0 <= i < |equal| :: index.columns[i] in t.kinds && t.kinds[index.columns[i]] == KindOf(equal[i]))
    && (span.Some? ==>
          && span.value.0 < Pow256(8) && span.value.1 < Pow256(8)
          && index.columns[|equal|] in t.kinds && t.kinds[index.columns[|equal|]] == ATime)
  }

  /** What is asked, of a record. */
  predicate Answers(index: Index, r: Record, equal: seq<Value>, span: Option<(nat, nat)>) {
    && Belongs(index, r.row) && |equal| <= |index.columns|
    && (forall i | 0 <= i < |equal| :: r.row[index.columns[i]] == equal[i])
    && (span.Some? && |equal| < |index.columns| && r.row[index.columns[|equal|]].Time? ==>
          span.value.0 <= r.row[index.columns[|equal|]].nanos <= span.value.1)
  }

  function Prefix(index: Index, equal: seq<Value>): Bytes
    requires AllInWidth(equal)
  {
    [index.number] + EncodedAll(equal)
  }

  function FirstKey(index: Index, equal: seq<Value>, span: Option<(nat, nat)>): Bytes
    requires AllInWidth(equal)
  {
    Prefix(index, equal) + if span.Some? then BigEndian(span.value.0, 8) else []
  }

  function LastKey(index: Index, equal: seq<Value>, span: Option<(nat, nat)>): Bytes
    requires AllInWidth(equal)
  {
    Prefix(index, equal) + if span.Some? then BigEndian(span.value.1, 8) + Full(17) else Full(64)
  }

  predicate InRange(key: Bytes, first: Bytes, last: Bytes) {
    !Less(key, first) && !Less(last, key)
  }

  /** What a key has after the columns asked to be equal. */
  function Rest(r: Record, time: Option<nat>): Bytes {
    (if time.Some? then BigEndian(time.value, 8) else []) + BigEndian(r.id, 16)
  }

  function TimeIn(index: Index, r: Record, equal: seq<Value>, span: Option<(nat, nat)>): Option<nat>
    requires Belongs(index, r.row) && |index.columns| == |equal| + (if span.Some? then 1 else 0)
    requires span.Some? ==> r.row[index.columns[|equal|]].Time?
  {
    if span.Some? then Some(r.row[index.columns[|equal|]].nanos) else None
  }

  /** A key is the values before its last, its time where one is asked, and its record's name. */
  lemma KeySplits(t: Table, index: Index, r: Record, equal: seq<Value>, span: Option<(nat, nat)>)
    requires RecordOk(t, r) && Asks(t, index, equal, span) && Belongs(index, r.row)
    ensures span.Some? ==> r.row[index.columns[|equal|]].Time? && r.row[index.columns[|equal|]].nanos < Pow256(8)
    ensures var values := ValuesOf(index, r.row)[..|equal|];
            && AllInWidth(values) && SameKinds(values, equal)
            && KeyOf(t, index, r) == Prefix(index, values) + Rest(r, TimeIn(index, r, equal, span))
  {
    hide Encoded, EncodedAll, BigEndian, Pow256, InWidth, AreBytes;
    ValuesFit(t, index, r);
    var values := ValuesOf(index, r.row);
    var before, after := values[..|equal|], values[|equal|..];
    assert values == before + after;
    EncodedAppends(before, after);
    RestEncoded(t, index, r, equal, span);
    BetweenParts([index.number], EncodedAll(before), EncodedAll(after), BigEndian(r.id, 16));
  }

  lemma BetweenParts(number: Bytes, before: Bytes, after: Bytes, name: Bytes)
    ensures number + (before + after) + name == (number + before) + (after + name)
  {
  }

  lemma RestEncoded(t: Table, index: Index, r: Record, equal: seq<Value>, span: Option<(nat, nat)>)
    requires RecordOk(t, r) && Asks(t, index, equal, span) && Belongs(index, r.row)
    ensures span.Some? ==> r.row[index.columns[|equal|]].Time? && r.row[index.columns[|equal|]].nanos < Pow256(8)
    ensures var after := ValuesOf(index, r.row)[|equal|..];
            AllInWidth(after)
            && EncodedAll(after) == if span.Some? then BigEndian(r.row[index.columns[|equal|]].nanos, 8) else []
  {
    hide Encoded, BigEndian, Pow256, InWidth;
    ValuesFit(t, index, r);
    var values := ValuesOf(index, r.row);
    var after := values[|equal|..];
    if span.Some? {
      assert after == [values[|equal|]];
      TimeEncoded(t, r, index.columns[|equal|]);
    } else {
      assert after == [];
      NoneEncoded();
    }
  }

  lemma TimeEncoded(t: Table, r: Record, c: Column)
    requires RecordOk(t, r) && c in r.row && c in t.kinds && t.kinds[c] == ATime
    ensures r.row[c].Time? && InWidth(r.row[c]) && r.row[c].nanos < Pow256(8)
    ensures EncodedAll([r.row[c]]) == BigEndian(r.row[c].nanos, 8)
  {
    hide Pow256, BigEndian;
    assert InWidth(r.row[c]);
    NoneEncoded();
    assert [r.row[c]][1..] == [];
    assert EncodedAll([r.row[c]]) == Encoded(r.row[c]) + [];
  }

  lemma EmptyLeast(x: Bytes)
    ensures !Less(x, [])
  {
  }

  /** Past a time's last key comes no key of that time. */
  lemma PastFull(id: nat, length: nat)
    requires 16 < length
    ensures !Less(Full(length), BigEndian(id, 16))
  {
    FullIsLast(BigEndian(id, 16), length);
    LessOneWay(BigEndian(id, 16), Full(length));
  }

  /** A key with what is asked to be equal is in the range where its time is in the span. */
  lemma RestInRange(index: Index, r: Record, equal: seq<Value>, span: Option<(nat, nat)>, time: Option<nat>)
    requires AllInWidth(equal) && (time.Some? <==> span.Some?)
    requires span.Some? ==> time.value < Pow256(8) && span.value.0 < Pow256(8) && span.value.1 < Pow256(8)
    ensures InRange(Prefix(index, equal) + Rest(r, time), FirstKey(index, equal, span), LastKey(index, equal, span))
       <==> (span.Some? ==> span.value.0 <= time.value <= span.value.1)
  {
    hide Encoded, EncodedAll, BigEndian, Pow256, Full, Less;
    var p, name := Prefix(index, equal), BigEndian(r.id, 16);
    NotLessItself(p);
    if span.Some? {
      var at, start, end := BigEndian(time.value, 8), BigEndian(span.value.0, 8), BigEndian(span.value.1, 8);
      LessParts(p, p, at + name, start);
      assert start + [] == start;
      LessParts(at, start, name, []);
      EmptyLeast(name);
      BigEndianSorts(time.value, span.value.0, 8);
      LessParts(p, p, end + Full(17), at + name);
      LessParts(end, at, Full(17), name);
      BigEndianSorts(span.value.1, time.value, 8);
      PastFull(r.id, 17);
    } else {
      assert [] + name == name && p + [] == p;
      LessParts(p, p, name, []);
      EmptyLeast(name);
      LessParts(p, p, Full(64), name);
      PastFull(r.id, 64);
    }
  }

  lemma PrefixEnds(index: Index, other: Index, a: seq<Value>, b: seq<Value>, key: Bytes, rest: Bytes)
    requires AllInWidth(a) && AllInWidth(b) && SameKinds(a, b)
    requires Prefix(index, b) <= key && key == Prefix(index, a) + rest
    ensures a == b
  {
    hide Encoded, EncodedAll, AreBytes, InWidth;
    var more := key[|Prefix(index, b)|..];
    assert key == [index.number] + (EncodedAll(a) + rest);
    assert key == [index.number] + (EncodedAll(b) + more);
    assert key[1..] == EncodedAll(a) + rest && key[1..] == EncodedAll(b) + more;
    EncodedAllEnds(a, b, rest, more);
  }

  /** A record's entry in the index asked is in the range where, and only where, the record is
      what is asked. */
  lemma EntryInRange(t: Table, index: Index, r: Record, equal: seq<Value>, span: Option<(nat, nat)>)
    requires RecordOk(t, r) && Asks(t, index, equal, span) && Belongs(index, r.row)
    ensures InRange(KeyOf(t, index, r), FirstKey(index, equal, span), LastKey(index, equal, span))
       <==> Answers(index, r, equal, span)
  {
    hide Encoded, EncodedAll, BigEndian, Pow256, Full, Less, InWidth;
    KeySplits(t, index, r, equal, span);
    var values := ValuesOf(index, r.row)[..|equal|];
    var key, rest := KeyOf(t, index, r), Rest(r, TimeIn(index, r, equal, span));
    if InRange(key, FirstKey(index, equal, span), LastKey(index, equal, span)) {
      BetweenHasPrefix(Prefix(index, equal), FirstKey(index, equal, span)[|Prefix(index, equal)|..],
                       LastKey(index, equal, span)[|Prefix(index, equal)|..], key);
      PrefixEnds(index, index, values, equal, key, rest);
    }
    if values == equal {
      RestInRange(index, r, equal, span, TimeIn(index, r, equal, span));
      assert forall i | 0 <= i < |equal| :: values[i] == r.row[index.columns[i]];
    } else {
      assert exists i | 0 <= i < |equal| :: values[i] != equal[i];
    }
  }

  /** An entry of another index is never in the range. */
  lemma OtherOutOfRange(t: Table, other: Index, r: Record, index: Index, equal: seq<Value>, span: Option<(nat, nat)>)
    requires RecordOk(t, r) && Belongs(other, r.row) && AllInWidth(equal) && other.number != index.number
    ensures !InRange(KeyOf(t, other, r), FirstKey(index, equal, span), LastKey(index, equal, span))
  {
    hide Encoded, EncodedAll, BigEndian, Pow256, Full, Less, InWidth;
    assert KeyOf(t, other, r)[0] == other.number && Prefix(index, equal)[0] == index.number;
    if InRange(KeyOf(t, other, r), FirstKey(index, equal, span), LastKey(index, equal, span)) {
      BetweenHasPrefix(Prefix(index, equal), FirstKey(index, equal, span)[|Prefix(index, equal)|..],
                       LastKey(index, equal, span)[|Prefix(index, equal)|..], KeyOf(t, other, r));
    }
  }

  /** The record kept at `place` is of the kind asked, and is what is asked. */
  ghost predicate Found(tables: Tables, store: Store, place: Place, kind: nat, index: Index,
                        equal: seq<Value>, span: Option<(nat, nat)>)
  {
    place in store && place.kind == kind && Answers(index, store[place], equal, span)
  }

  /** The range holds an entry of each record that is what is asked, named as it is, and no
      other: a query over an exact index is a filter of all records. */
  lemma QueryIsFilter(tables: Tables, store: Store, index: IndexStore, kind: nat, asked: Index,
                      equal: seq<Value>, span: Option<(nat, nat)>, key: Bytes)
    requires TablesOk(tables) && StoreOk(tables, store) && Exact(tables, store, index)
    requires kind in tables && Asks(tables[kind], asked, equal, span)
    ensures key in index && InRange(key, FirstKey(asked, equal, span), LastKey(asked, equal, span))
       <==> exists place :: Found(tables, store, place, kind, asked, equal, span)
              && key == KeyOf(tables[kind], asked, store[place])
    ensures forall place | Found(tables, store, place, kind, asked, equal, span)
              && key == KeyOf(tables[kind], asked, store[place]) :: key in index && index[key] == store[place].id
  {
    hide KeysOf, Less, EncodedAll, BigEndian, Pow256, Full;
    var t := tables[kind];
    var n :| 0 <= n < |t.indexes| && t.indexes[n] == asked;
    forall place | Found(tables, store, place, kind, asked, equal, span) && key == KeyOf(t, asked, store[place])
      ensures key in index && index[key] == store[place].id
      ensures InRange(key, FirstKey(asked, equal, span), LastKey(asked, equal, span))
    {
      KeyThere(t, n, store[place]);
      EntryInRange(t, asked, store[place], equal, span);
    }
    if key in index && InRange(key, FirstKey(asked, equal, span), LastKey(asked, equal, span)) {
      var place :| OwnEntry(tables, store, place, key, index[key]);
      var i := KeyNumber(tables[place.kind], store[place], key);
      var own := tables[place.kind].indexes[i];
      if own.number != asked.number {
        OtherOutOfRange(tables[place.kind], own, store[place], asked, equal, span);
      } else {
        assert place.kind == kind && i == n;
        EntryInRange(t, asked, store[place], equal, span);
      }
    }
  }

  lemma KeyThere(t: Table, n: nat, r: Record)
    requires RecordOk(t, r) && n < |t.indexes| && Belongs(t.indexes[n], r.row)
    ensures KeyOf(t, t.indexes[n], r) in KeysOf(t, r)
  {
  }

  /** The range is in order of time, and of identifier where times are the same. */
  lemma QueryInOrder(t: Table, index: Index, a: Record, b: Record, equal: seq<Value>, span: Option<(nat, nat)>)
    requires RecordOk(t, a) && RecordOk(t, b) && Asks(t, index, equal, span)
    requires Answers(index, a, equal, span) && Answers(index, b, equal, span)
    requires span.Some? ==> a.row[index.columns[|equal|]].Time? && b.row[index.columns[|equal|]].Time?
    ensures Less(KeyOf(t, index, a), KeyOf(t, index, b))
       <==> if span.None? then a.id < b.id
            else a.row[index.columns[|equal|]].nanos < b.row[index.columns[|equal|]].nanos
                 || (a.row[index.columns[|equal|]].nanos == b.row[index.columns[|equal|]].nanos && a.id < b.id)
  {
    hide Encoded, EncodedAll, BigEndian, Full, Less, InWidth, Pow256;
    KeySplits(t, index, a, equal, span);
    KeySplits(t, index, b, equal, span);
    SameValues(index, a, equal, span);
    SameValues(index, b, equal, span);
    var p := Prefix(index, equal);
    var ta, tb := TimeIn(index, a, equal, span), TimeIn(index, b, equal, span);
    NotLessItself(p);
    LessParts(p, p, Rest(a, ta), Rest(b, tb));
    BigEndianSorts(a.id, b.id, 16);
    if span.Some? {
      LessParts(BigEndian(ta.value, 8), BigEndian(tb.value, 8), BigEndian(a.id, 16), BigEndian(b.id, 16));
      BigEndianSorts(ta.value, tb.value, 8);
    } else {
      assert Rest(a, ta) == BigEndian(a.id, 16) && Rest(b, tb) == BigEndian(b.id, 16);
    }
  }

  lemma SameValues(index: Index, r: Record, equal: seq<Value>, span: Option<(nat, nat)>)
    requires Answers(index, r, equal, span)
    ensures ValuesOf(index, r.row)[..|equal|] == equal
  {
  }

  // ---- What a query answers. ----

  /** Of two records asked for, the one its index has first. */
  predicate Before(index: Index, r: Record, s: Record, equal: seq<Value>, span: Option<(nat, nat)>) {
    if span.Some? && |equal| < |index.columns| && index.columns[|equal|] in r.row && index.columns[|equal|] in s.row
       && r.row[index.columns[|equal|]].Time? && s.row[index.columns[|equal|]].Time?
    then var a, b := r.row[index.columns[|equal|]].nanos, s.row[index.columns[|equal|]].nanos;
         a < b || (a == b && r.id < s.id)
    else r.id < s.id
  }

  /** The engine's scan of a range: every key of it, in order. */
  ghost predicate Scans(index: IndexStore, first: Bytes, last: Bytes, keys: seq<Bytes>) {
    && (forall key :: key in keys <==> key in index && InRange(key, first, last))
    && forall i, j | 0 <= i < j < |keys| :: Less(keys[i], keys[j])
  }

  /** The records of the first `most` of a scan, or of the last, newest first. */
  function Find(index: IndexStore, keys: seq<Bytes>, most: nat, reverse: bool): (ids: seq<nat>)
    requires forall key | key in keys :: key in index
    ensures |ids| == if most < |keys| then most else |keys|
    ensures forall i | 0 <= i < |ids| :: ids[i] == index[keys[if reverse then |keys| - 1 - i else i]]
  {
    seq(if most < |keys| then most else |keys|,
        i requires 0 <= i < |keys| => index[keys[if reverse then |keys| - 1 - i else i]])
  }

  /** A record for each key of a scan, its own. */
  lemma QueryPlaces(tables: Tables, store: Store, index: IndexStore, kind: nat, asked: Index,
                    equal: seq<Value>, span: Option<(nat, nat)>, keys: seq<Bytes>)
    returns (places: seq<Place>)
    requires TablesOk(tables) && StoreOk(tables, store) && Exact(tables, store, index)
    requires kind in tables && Asks(tables[kind], asked, equal, span)
    requires Scans(index, FirstKey(asked, equal, span), LastKey(asked, equal, span), keys)
    ensures |places| == |keys|
    ensures forall i | 0 <= i < |keys| :: EntryOf(tables, store, index, kind, asked, equal, span, places[i], keys[i])
  {
    hide KeysOf, Less, EncodedAll, BigEndian, Pow256, Full, Exact, TablesOk, InRange, Asks;
    places := [];
    for i := 0 to |keys|
      invariant |places| == i
      invariant forall j | 0 <= j < i :: EntryOf(tables, store, index, kind, asked, equal, span, places[j], keys[j])
    {
      assert keys[i] in keys;
      QueryIsFilter(tables, store, index, kind, asked, equal, span, keys[i]);
      var place :| Found(tables, store, place, kind, asked, equal, span) && keys[i] == KeyOf(tables[kind], asked, store[place]);
      places := places + [place];
    }
  }

  /** Each record asked for is one of them. */
  lemma AllFound(tables: Tables, store: Store, index: IndexStore, kind: nat, asked: Index,
                 equal: seq<Value>, span: Option<(nat, nat)>, keys: seq<Bytes>, places: seq<Place>, place: Place)
    requires TablesOk(tables) && StoreOk(tables, store) && OwnNames(tables, store) && Exact(tables, store, index)
    requires kind in tables && Asks(tables[kind], asked, equal, span)
    requires Scans(index, FirstKey(asked, equal, span), LastKey(asked, equal, span), keys)
    requires |places| == |keys|
    requires forall i | 0 <= i < |keys| :: EntryOf(tables, store, index, kind, asked, equal, span, places[i], keys[i])
    requires Found(tables, store, place, kind, asked, equal, span)
    ensures place in places
  {
    hide KeysOf, Less, EncodedAll, BigEndian, Pow256, Full, Exact, TablesOk, OwnNames, InRange, Asks;
    var key := KeyOf(tables[kind], asked, store[place]);
    QueryIsFilter(tables, store, index, kind, asked, equal, span, key);
    assert key in keys;
    var i :| 0 <= i < |keys| && keys[i] == key;
    assert EntryOf(tables, store, index, kind, asked, equal, span, places[i], keys[i]);
    OneOfKey(tables, store, kind, asked, equal, span, place, places[i]);
  }

  /** A query's answer is the records asked for, sorted by time and identifier, up to as many as
      asked, or the newest of them first: `places` lists them, each once and in that order. */
  lemma QueryAnswers(tables: Tables, store: Store, index: IndexStore, kind: nat, asked: Index,
                     equal: seq<Value>, span: Option<(nat, nat)>, keys: seq<Bytes>, most: nat, reverse: bool)
    returns (places: seq<Place>)
    requires TablesOk(tables) && StoreOk(tables, store) && OwnNames(tables, store) && Exact(tables, store, index)
    requires kind in tables && Asks(tables[kind], asked, equal, span)
    requires Scans(index, FirstKey(asked, equal, span), LastKey(asked, equal, span), keys)
    ensures forall i | 0 <= i < |places| :: Found(tables, store, places[i], kind, asked, equal, span)
    ensures forall place | Found(tables, store, place, kind, asked, equal, span) :: place in places
    ensures forall i | 0 <= i < |places| :: places[i] in store
    ensures forall i, j | 0 <= i < j < |places| :: Before(asked, store[places[i]], store[places[j]], equal, span)
    ensures var ids := Find(index, keys, most, reverse);
            && |ids| == (if most < |places| then most else |places|)
            && forall i | 0 <= i < |ids| :: ids[i] == store[places[if reverse then |places| - 1 - i else i]].id
  {
    hide KeysOf, Less, EncodedAll, BigEndian, Pow256, Full, Exact, TablesOk, OwnNames, InRange, Asks, Found, Before;
    places := QueryPlaces(tables, store, index, kind, asked, equal, span, keys);
    forall place | Found(tables, store, place, kind, asked, equal, span) ensures place in places {
      AllFound(tables, store, index, kind, asked, equal, span, keys, places, place);
    }
    forall i | 0 <= i < |places|
      ensures Found(tables, store, places[i], kind, asked, equal, span) && places[i] in store && index[keys[i]] == store[places[i]].id
    {
      EntryIs(tables, store, index, kind, asked, equal, span, places[i], keys[i]);
    }
    forall i, j | 0 <= i < j < |places| ensures Before(asked, store[places[i]], store[places[j]], equal, span) {
      EntryIs(tables, store, index, kind, asked, equal, span, places[i], keys[i]);
      EntryIs(tables, store, index, kind, asked, equal, span, places[j], keys[j]);
      InOrder(tables[kind], asked, store[places[i]], store[places[j]], equal, span);
    }
  }

  lemma EntryIs(tables: Tables, store: Store, index: IndexStore, kind: nat, asked: Index, equal: seq<Value>,
                span: Option<(nat, nat)>, place: Place, key: Bytes)
    requires kind in tables && StoreOk(tables, store)
    requires EntryOf(tables, store, index, kind, asked, equal, span, place, key)
    ensures Found(tables, store, place, kind, asked, equal, span) && place in store && RecordOk(tables[kind], store[place])
    ensures key in index && index[key] == store[place].id && Answers(asked, store[place], equal, span)
    ensures key == KeyOf(tables[kind], asked, store[place])
  {
  }

  ghost predicate EntryOf(tables: Tables, store: Store, index: IndexStore, kind: nat, asked: Index, equal: seq<Value>,
                          span: Option<(nat, nat)>, place: Place, key: Bytes)
    requires kind in tables && StoreOk(tables, store)
  {
    && Found(tables, store, place, kind, asked, equal, span) && key == KeyOf(tables[kind], asked, store[place])
    && key in index && index[key] == store[place].id
  }

  lemma OneOfKey(tables: Tables, store: Store, kind: nat, asked: Index, equal: seq<Value>, span: Option<(nat, nat)>,
                 a: Place, b: Place)
    requires TablesOk(tables) && StoreOk(tables, store) && OwnNames(tables, store)
    requires kind in tables && Asks(tables[kind], asked, equal, span)
    requires Found(tables, store, a, kind, asked, equal, span) && Found(tables, store, b, kind, asked, equal, span)
    requires KeyOf(tables[kind], asked, store[a]) == KeyOf(tables[kind], asked, store[b])
    ensures a == b
  {
    hide KeysOf, EncodedAll, BigEndian, Pow256, SameNames;
    var n :| 0 <= n < |tables[kind].indexes| && tables[kind].indexes[n] == asked;
    KeyThere(tables[kind], n, store[a]);
    KeyThere(tables[kind], n, store[b]);
    SharedIsNamed(tables[kind], store[a], store[b], KeyOf(tables[kind], asked, store[a]));
  }

  lemma InOrder(t: Table, asked: Index, r: Record, s: Record, equal: seq<Value>, span: Option<(nat, nat)>)
    requires RecordOk(t, r) && RecordOk(t, s) && Asks(t, asked, equal, span)
    requires Answers(asked, r, equal, span) && Answers(asked, s, equal, span)
    requires Less(KeyOf(t, asked, r), KeyOf(t, asked, s))
    ensures Before(asked, r, s, equal, span)
  {
    hide Less, EncodedAll, BigEndian, Pow256;
    if span.Some? {
      TimeEncoded(t, r, asked.columns[|equal|]);
      TimeEncoded(t, s, asked.columns[|equal|]);
    }
    QueryInOrder(t, asked, r, s, equal, span);
  }
}
