/** A queue read by when each Message in it is due (`due.rs`): where each part's first is,
    found again once a batch is decided, and a read of one part from there. */
module Due {
  import opened Wrappers
  import opened Records
  import opened Order

  /** What a queue holds, by place. */
  type Entries = map<nat, Held>

  /** What a batch left at each place it wrote: an entry, or none. */
  type Writes = map<nat, Option<Held>>

  /** No entry due since it was held is before `ready`, no retry before `retry`. */
  datatype DuePlaces = DuePlaces(ready: nat, retry: Pos, retrying: nat)

  const UNKEPT := DuePlaces(0, Pos(1, 0), 0)

  const NO_RETRY := Pos(U64_MAX, U64_MAX)

  datatype Part = DueNow | WaitingRetry | FailedHere

  // ---- The index `held_due`, as the entries make it. ----

  function Indexed(entries: Entries, failed: bool): set<Pos> {
    set p | p in entries && entries[p].failed == failed :: Pos(entries[p].DueAt(), p)
  }

  function ReadyKeys(entries: Entries): set<Pos> {
    set k | k in Indexed(entries, false) && k.due == 0
  }

  function RetryKeys(entries: Entries): set<Pos> {
    set k | k in Indexed(entries, false) && k.due > 0
  }

  function Wrote(entries: Entries, written: Writes): Entries {
    map p | p in entries.Keys + written.Keys && (p in written ==> written[p].Some?) ::
      if p in written then written[p].value else entries[p]
  }

  /** What a settling leaves: each part's true first, and how many keep a retry's due time. */
  ghost predicate Settled(entries: Entries, next: nat, d: DuePlaces) {
    && (if ReadyKeys(entries) == {} then d.ready == next
        else d.ready == Least(ReadyKeys(entries)).place)
    && d.retry == (if RetryKeys(entries) == {} then NO_RETRY else Least(RetryKeys(entries)))
    && d.retrying == |RetryKeys(entries)|
  }

  /** What a read, and the next settling, starts from: never past a part's first. */
  ghost predicate NotPast(entries: Entries, d: DuePlaces) {
    && (forall k | k in ReadyKeys(entries) :: d.ready <= k.place)
    && (forall k | k in RetryKeys(entries) :: !Before(k, d.retry))
    && d.retrying == |RetryKeys(entries)|
    && d.retry.due > 0
  }

  ghost predicate InWidth(entries: Entries) {
    forall p | p in entries :: p < U64_MAX
  }

  /** Each part's first is the true first of it, and the retries are counted. */
  ghost predicate Exact(entries: Entries, d: DuePlaces) {
    && (ReadyKeys(entries) != {} ==> d.ready == Least(ReadyKeys(entries)).place)
    && (RetryKeys(entries) != {} ==> d.retry == Least(RetryKeys(entries)))
    && d.retrying == |RetryKeys(entries)|
    && d.retry.due > 0
  }

  lemma SettledIsExact(entries: Entries, next: nat, d: DuePlaces)
    requires Settled(entries, next, d)
    ensures Exact(entries, d)
  {
  }

  lemma ExactIsNotPast(entries: Entries, d: DuePlaces)
    requires Exact(entries, d)
    ensures NotPast(entries, d)
  {
  }

  lemma UnkeptIsExact()
    ensures Exact(map[], UNKEPT)
  {
    assert Indexed(map[], false) == {};
    assert ReadyKeys(map[]) == {};
    assert RetryKeys(map[]) == {};
  }

  // ---- Where a part's first is, found again. ----

  /** Keys with places of their own are no more than their places. */
  lemma {:induction false} NoMoreThanPlaces(found: seq<Pos>, places: set<nat>)
    requires Sorted(found)
    requires forall i, j | 0 <= i < j < |found| :: found[i].place != found[j].place
    requires forall i | 0 <= i < |found| :: found[i].place in places
    ensures |found| <= |places|
  {
    if found != [] {
      var last := |found| - 1;
      NoMoreThanPlaces(found[..last], places - {found[last].place});
    }
  }

  ghost predicate IsFirst(first: Option<Pos>, among: set<Pos>) {
    match first
    case None => among == {}
    case Some(pos) => IsLeast(pos, among)
  }

  /** The keys of one part the engine holds at places a batch did not write. */
  ghost function Untaken(entries: Entries, start: Pos, to: nat, touched: set<nat>): set<Pos> {
    set k | k in Indexed(entries, false) && !Before(k, start) && k.due <= to && k.place !in touched
  }

  /** What one range of the index finds, before any is left out. */
  ghost function Region(entries: Entries, start: Pos, to: nat): set<Pos> {
    set k | k in Indexed(entries, false) && !Before(k, start) && k.due <= to
  }

  /** The first found at an untouched place is the first there is: all found before it are not,
      and all not found are after it. */
  lemma FirstFound(entries: Entries, start: Pos, to: nat, touched: set<nat>, i: nat)
    requires i < |Ascending(Region(entries, start, to))|
    requires forall j | 0 <= j < i :: Ascending(Region(entries, start, to))[j].place in touched
    requires Ascending(Region(entries, start, to))[i].place !in touched
    ensures IsLeast(Ascending(Region(entries, start, to))[i], Untaken(entries, start, to, touched))
  {
    var all, found := Region(entries, start, to), Ascending(Region(entries, start, to));
    AscendingLists(all);
    assert found[i] in all;
    forall k | k in Untaken(entries, start, to, touched) ensures !Before(k, found[i]) {
      assert k in all;
      var j :| 0 <= j < |found| && found[j] == k;
      assert i <= j;
      assert i < j ==> Before(found[i], found[j]);
    }
  }

  /** One more found than there are places written: one of them was not written. */
  lemma OneUntouched(entries: Entries, start: Pos, to: nat, touched: set<nat>, found: seq<Pos>)
    requires found == Take(Ascending(Region(entries, start, to)), |touched| + 1)
    requires forall j | 0 <= j < |found| :: found[j].place in touched
    ensures Untaken(entries, start, to, touched) == {}
  {
    var all := Region(entries, start, to);
    AscendingLists(all);
    forall i, j | 0 <= i < j < |found| ensures found[i].place != found[j].place {
      assert found[i] == Ascending(all)[i] && found[j] == Ascending(all)[j];
      assert found[i] in all && found[j] in all && Before(found[i], found[j]);
    }
    NoMoreThanPlaces(found, touched);
    assert found == Ascending(all);
    forall k | k in Untaken(entries, start, to, touched) ensures k in found {
      assert k in all;
    }
  }

  /** The first not failed entry the engine holds from `start` on, due at `to` at the latest,
      that the batch did not write: one range of one more than it wrote. */
  method Untouched(entries: Entries, start: Pos, to: nat, touched: set<nat>) returns (first: Option<Pos>)
    ensures IsFirst(first, Untaken(entries, start, to, touched))
  {
    hide Ascending, IsLeast, Indexed;
    var found := Range(Indexed(entries, false), start, to, |touched| + 1);
    assert found == Take(Ascending(Region(entries, start, to)), |touched| + 1);
    for i := 0 to |found|
      invariant forall j | 0 <= j < i :: found[j].place in touched
    {
      if found[i].place !in touched {
        FirstFound(entries, start, to, touched, i);
        return Some(found[i]);
      }
    }
    OneUntouched(entries, start, to, touched, found);
    return None;
  }

  /** One where it keeps a retry's due time and did not fail. */
  function Retries(held: Option<Held>): nat {
    if held.Some? && held.value.due.Some? && !held.value.failed then 1 else 0
  }

  function At(entries: Entries, place: nat): Option<Held> {
    if place in entries then Some(entries[place]) else None
  }

  lemma RetriesAt(entries: Entries, place: nat)
    ensures |RetryKeys(entries)|
         == |set k | k in RetryKeys(entries) && k.place != place| + Retries(At(entries, place))
  {
    var rest := set k | k in RetryKeys(entries) && k.place != place;
    if Retries(At(entries, place)) == 1 {
      var key := Pos(entries[place].DueAt(), place);
      assert key in Indexed(entries, false);
      assert RetryKeys(entries) == rest + {key};
    } else {
      assert RetryKeys(entries) == rest;
    }
  }

  /** One place written moves the count of retries by what was there and what is. */
  lemma OneWritten(entries: Entries, after: Entries, place: nat)
    requires forall p | p != place :: (p in entries <==> p in after) && (p in entries ==> entries[p] == after[p])
    ensures |RetryKeys(after)| + Retries(At(entries, place)) == |RetryKeys(entries)| + Retries(At(after, place))
  {
    var rest := set k | k in RetryKeys(entries) && k.place != place;
    RetriesAt(entries, place);
    RetriesAt(after, place);
    assert rest == set k | k in RetryKeys(after) && k.place != place;
  }

  /** What a batch wrote of a part, at the places of `seen`. */
  ghost function WroteOf(written: Writes, seen: set<nat>, ready: bool): set<Pos> {
    set p | p in seen && p in written && InPart(written[p], ready) :: Pos(written[p].value.DueAt(), p)
  }

  lemma WroteMore(written: Writes, seen: set<nat>, place: nat, ready: bool)
    requires place in written
    ensures WroteOf(written, seen + {place}, ready)
         == WroteOf(written, seen, ready)
          + (if InPart(written[place], ready) then {Pos(written[place].value.DueAt(), place)} else {})
  {
  }

  predicate InPart(held: Option<Held>, ready: bool) {
    held.Some? && !held.value.failed && (held.value.DueAt() == 0) == ready
  }

  function Earlier(first: Option<Pos>, pos: Pos): Option<Pos> {
    if first.Some? && !Before(pos, first.value) then first else Some(pos)
  }

  lemma LeastOfMore(first: Option<Pos>, among: set<Pos>, pos: Pos)
    requires IsFirst(first, among)
    ensures IsFirst(Earlier(first, pos), among + {pos})
  {
    assert IsLeast(Earlier(first, pos).value, among + {pos});
  }

  /** The entries once the batch's writes at the places of `seen` are made. */
  ghost function Partly(entries: Entries, written: Writes, seen: set<nat>): Entries {
    Wrote(entries, map p | p in seen && p in written :: written[p])
  }

  lemma CountedOn(entries: Entries, written: Writes, seen: set<nat>, place: nat)
    requires place in written && place !in seen
    ensures |RetryKeys(Partly(entries, written, seen + {place}))| + Retries(At(entries, place))
         == |RetryKeys(Partly(entries, written, seen))| + Retries(written[place])
  {
    var before, after := Partly(entries, written, seen), Partly(entries, written, seen + {place});
    OneWritten(before, after, place);
    assert At(before, place) == At(entries, place);
    assert At(after, place) == written[place];
  }

  /** A part's first once what the batch left at one more place is looked at. */
  function FirstWith(first: Option<Pos>, held: Option<Held>, place: nat, ready: bool): Option<Pos> {
    if InPart(held, ready) then Earlier(first, Pos(held.value.DueAt(), place)) else first
  }

  lemma FirstOn(written: Writes, seen: set<nat>, place: nat, first: Option<Pos>, ready: bool)
    requires place in written && IsFirst(first, WroteOf(written, seen, ready))
    ensures IsFirst(FirstWith(first, written[place], place, ready), WroteOf(written, seen + {place}, ready))
  {
    WroteMore(written, seen, place, ready);
    if InPart(written[place], ready) {
      LeastOfMore(first, WroteOf(written, seen, ready), Pos(written[place].value.DueAt(), place));
    } else {
      assert WroteOf(written, seen + {place}, ready) == WroteOf(written, seen, ready);
    }
  }

  /** How many retries the batch leaves, and the first of each part it wrote, as far as its
      writes were looked at. */
  ghost predicate Seen(entries: Entries, written: Writes, seen: set<nat>,
                       retrying: int, ready: Option<Pos>, retry: Option<Pos>) {
    && retrying == |RetryKeys(Partly(entries, written, seen))|
    && IsFirst(ready, WroteOf(written, seen, true))
    && IsFirst(retry, WroteOf(written, seen, false))
  }

  lemma SeeOne(entries: Entries, written: Writes, seen: set<nat>, place: nat,
               retrying: int, ready: Option<Pos>, retry: Option<Pos>)
    requires Seen(entries, written, seen, retrying, ready, retry)
    requires place in written && place !in seen
    ensures Seen(entries, written, seen + {place},
                 retrying + Retries(written[place]) - Retries(At(entries, place)),
                 FirstWith(ready, written[place], place, true),
                 FirstWith(retry, written[place], place, false))
  {
    CountedOn(entries, written, seen, place);
    FirstOn(written, seen, place, ready, true);
    FirstOn(written, seen, place, retry, false);
  }

  lemma SeenAll(entries: Entries, written: Writes)
    ensures Partly(entries, written, {}) == entries
    ensures Partly(entries, written, written.Keys) == Wrote(entries, written)
  {
    assert (map p | p in written.Keys && p in written :: written[p]) == written;
  }

  lemma NoneSeen(entries: Entries, written: Writes, retrying: nat)
    requires retrying == |RetryKeys(entries)|
    ensures Seen(entries, written, {}, retrying, None, None)
  {
    SeenAll(entries, written);
  }

  lemma OneLess(all: set<nat>, left: set<nat>, one: nat)
    requires left <= all && one in left
    ensures (all - left) + {one} == all - (left - {one})
  {
  }

  /** What the batch wrote of a queue read through: how many retries it leaves, and the first
      of each part it wrote. */
  method WrittenFirsts(entries: Entries, written: Writes, before: DuePlaces)
    returns (retrying: int, ready: Option<Pos>, retry: Option<Pos>)
    requires before.retrying == |RetryKeys(entries)|
    ensures Seen(entries, written, written.Keys, retrying, ready, retry)
  {
    hide *;
    retrying, ready, retry := before.retrying, None, None;
    var left := written.Keys;
    NoneSeen(entries, written, before.retrying);
    assert written.Keys - left == {};
    while left != {}
      invariant left <= written.Keys
      invariant Seen(entries, written, written.Keys - left, retrying, ready, retry)
      decreases |left|
    {
      var place :| place in left;
      SeeOne(entries, written, written.Keys - left, place, retrying, ready, retry);
      retrying := retrying + Retries(written[place]) - Retries(At(entries, place));
      ready := FirstWith(ready, written[place], place, true);
      retry := FirstWith(retry, written[place], place, false);
      OneLess(written.Keys, left, place);
      left := left - {place};
    }
    assert written.Keys - left == written.Keys;
  }

  /** The first of a part: the first the batch did not write of what the engine holds, or the
      first it wrote, whichever is first. */
  lemma FirstOfEither(kept: Option<Pos>, untouched: set<Pos>, wrote: Option<Pos>, ours: set<Pos>)
    requires IsFirst(kept, untouched) && IsFirst(wrote, ours)
    ensures IsFirst(if wrote.None? then kept else Earlier(kept, wrote.value), untouched + ours)
  {
    if wrote.Some? {
      LeastOfMore(kept, untouched, wrote.value);
      var first := Earlier(kept, wrote.value).value;
      assert IsLeast(first, untouched + ours);
    } else {
      assert untouched + ours == untouched;
    }
  }

  lemma PartsAfter(entries: Entries, written: Writes)
    ensures ReadyKeys(Wrote(entries, written))
         == Untaken(entries, Pos(0, 0), 0, written.Keys) + WroteOf(written, written.Keys, true)
    ensures RetryKeys(Wrote(entries, written))
         == Untaken(entries, Pos(1, 0), U64_MAX, written.Keys) + WroteOf(written, written.Keys, false)
  {
    var after := Wrote(entries, written);
    forall k | k in Indexed(entries, false) && k.place !in written
      ensures k in Indexed(after, false)
    {
      assert k.place in after && after[k.place] == entries[k.place];
    }
    forall p | p in written && written[p].Some? && !written[p].value.failed
      ensures Pos(written[p].value.DueAt(), p) in Indexed(after, false)
    {
      assert p in after && after[p] == written[p].value;
    }
  }

  lemma LeastIsLeast(least: Pos, index: set<Pos>)
    requires IsLeast(least, index)
    ensures least == Least(index)
  {
  }

  /** A queue's firsts as the batch leaves them, found again from where they were. Where
      nothing is due since it was held, the next place taken, read only then. */
  method Settle(entries: Entries, written: Writes, before: DuePlaces, places: Result<Places>)
    returns (after: Result<DuePlaces>)
    requires NotPast(entries, before) && InWidth(entries)
    ensures after.Err? <==> places.Err? && ReadyKeys(Wrote(entries, written)) == {}
    ensures after.Err? ==> after.error == places.error
    ensures after.Ok? ==> Settled(Wrote(entries, written), if places.Ok? then places.value.next else 0, after.value)
  {
    var retrying, ready, retry := WrittenFirsts(entries, written, before);
    SeenAll(entries, written);
    PartsAfter(entries, written);
    var readyFirst := SettleReady(entries, before, ready, written);
    var retryFirst := SettleRetry(entries, before, retry, written);
    var first;
    if readyFirst.Some? {
      first := readyFirst.value.place;
      LeastIsLeast(readyFirst.value, ReadyKeys(Wrote(entries, written)));
    } else {
      var kept :- places;
      first := kept.next;
    }
    if retryFirst.Some? {
      LeastIsLeast(retryFirst.value, RetryKeys(Wrote(entries, written)));
    }
    return Ok(DuePlaces(first, if retryFirst.None? then NO_RETRY else retryFirst.value, retrying));
  }

  method SettleReady(entries: Entries, before: DuePlaces, wrote: Option<Pos>, written: Writes)
    returns (first: Option<Pos>)
    requires NotPast(entries, before) && IsFirst(wrote, WroteOf(written, written.Keys, true))
    ensures IsFirst(first, Untaken(entries, Pos(0, 0), 0, written.Keys) + WroteOf(written, written.Keys, true))
  {
    ghost var held, ours := Untaken(entries, Pos(0, 0), 0, written.Keys), WroteOf(written, written.Keys, true);
    forall k | k in held ensures before.ready <= k.place {
      assert k in ReadyKeys(entries);
    }
    // Every entry the engine holds of a part is at or after where its first was, so a first
    // the batch wrote at or before it is the first, and nothing is read.
    if wrote.Some? && wrote.value.place <= before.ready {
      assert IsLeast(wrote.value, held + ours);
      return wrote;
    }
    var kept := Untouched(entries, Pos(0, before.ready), 0, written.Keys);
    assert held == Untaken(entries, Pos(0, before.ready), 0, written.Keys);
    FirstOfEither(kept, held, wrote, ours);
    first := if wrote.None? then kept else Earlier(kept, wrote.value);
  }

  lemma NoneWaits(entries: Entries, before: DuePlaces, touched: set<nat>)
    requires NotPast(entries, before) && InWidth(entries) && before.retry == NO_RETRY
    ensures Untaken(entries, Pos(1, 0), U64_MAX, touched) == {}
  {
    assert forall k | k in RetryKeys(entries) :: k.place in entries && k.place < U64_MAX;
    assert Untaken(entries, Pos(1, 0), U64_MAX, touched) <= RetryKeys(entries);
  }

  method SettleRetry(entries: Entries, before: DuePlaces, wrote: Option<Pos>, written: Writes)
    returns (first: Option<Pos>)
    requires NotPast(entries, before) && InWidth(entries) && IsFirst(wrote, WroteOf(written, written.Keys, false))
    ensures IsFirst(first, Untaken(entries, Pos(1, 0), U64_MAX, written.Keys) + WroteOf(written, written.Keys, false))
  {
    ghost var held, ours := Untaken(entries, Pos(1, 0), U64_MAX, written.Keys), WroteOf(written, written.Keys, false);
    forall k | k in held ensures !Before(k, before.retry) {
      assert k in RetryKeys(entries);
    }
    var kept := None;
    if before.retry == NO_RETRY {
      NoneWaits(entries, before, written.Keys);
    } else if wrote.Some? && !Before(before.retry, wrote.value) {
      assert IsLeast(wrote.value, held + ours);
      return wrote;
    } else {
      kept := Untouched(entries, before.retry, U64_MAX, written.Keys);
      assert held == Untaken(entries, before.retry, U64_MAX, written.Keys);
    }
    FirstOfEither(kept, held, wrote, ours);
    first := if wrote.None? then kept else Earlier(kept, wrote.value);
  }

  // ---- A part of a queue read. ----

  /** The first due time not yet come at `at`; at the last a column keeps, that one. */
  function NextDue(at: nat): nat {
    if at >= U64_MAX then U64_MAX else at + 1
  }

  /** What each part holds at `at`: what is due, what waits, what failed. */
  function PartKeys(entries: Entries, part: Part, at: nat): set<Pos> {
    match part
    case DueNow => ReadyKeys(entries) + DueRetries(entries, at)
    case WaitingRetry => set k | k in RetryKeys(entries) && k.due >= NextDue(at)
    case FailedHere => Indexed(entries, true)
  }

  function DueRetries(entries: Entries, at: nat): set<Pos> {
    set k | k in RetryKeys(entries) && k.due <= at
  }

  lemma RegionIs(entries: Entries, start: Pos, to: nat, keys: set<Pos>, most: nat)
    requires forall k :: k in keys <==> k in Indexed(entries, false) && !Before(k, start) && k.due <= to
    ensures Range(Indexed(entries, false), start, to, most) == Take(Ascending(keys), most)
  {
    assert keys == set pos | pos in Indexed(entries, false) && !Before(pos, start) && pos.due <= to;
  }

  lemma DueAtMost(entries: Entries, k: Pos)
    requires k in Indexed(entries, false) || k in Indexed(entries, true)
    ensures k.due <= U64_MAX && k.place in entries && k.due == entries[k.place].DueAt()
  {
  }

  /** The first range of what is due: what is due since it was held. */
  method ReadFirst(entries: Entries, d: DuePlaces, start: Pos, most: nat) returns (found: seq<Pos>)
    requires NotPast(entries, d)
    ensures found == Take(Ascending(From(ReadyKeys(entries), start)), most)
  {
    if start.due == 0 {
      var first := Pos(0, Max(start.place, d.ready));
      RegionIs(entries, first, 0, From(ReadyKeys(entries), start), most);
      return Range(Indexed(entries, false), first, 0, most);
    }
    assert From(ReadyKeys(entries), start) == {};
    return [];
  }

  /** The second: the retries whose due time has come. */
  method ReadRetries(entries: Entries, d: DuePlaces, start: Pos, most: nat, at: nat) returns (found: seq<Pos>)
    requires NotPast(entries, d)
    ensures found == Take(Ascending(From(DueRetries(entries, at), start)), most)
  {
    var later := Later(start, d.retry);
    if 0 < most && later.due <= at {
      RegionIs(entries, later, at, From(DueRetries(entries, at), start), most);
      return Range(Indexed(entries, false), later, at, most);
    }
    assert most == 0 || From(DueRetries(entries, at), start) == {};
    return [];
  }

  lemma DueIsBoth(entries: Entries, start: Pos, at: nat)
    ensures Ascending(From(PartKeys(entries, DueNow, at), start))
         == Ascending(From(ReadyKeys(entries), start)) + Ascending(From(DueRetries(entries, at), start))
  {
    assert From(PartKeys(entries, DueNow, at), start)
        == From(ReadyKeys(entries), start) + From(DueRetries(entries, at), start);
    AscendingParts(From(ReadyKeys(entries), start), From(DueRetries(entries, at), start));
  }

  /** The part due now from `start` on, each of its two ranges from where its first is. */
  method ReadReady(entries: Entries, d: DuePlaces, start: Pos, most: nat, at: nat) returns (found: seq<Pos>)
    requires NotPast(entries, d)
    ensures found == Take(Ascending(From(PartKeys(entries, DueNow, at), start)), most)
  {
    hide *;
    DueIsBoth(entries, start, at);
    TakeParts(Ascending(From(ReadyKeys(entries), start)), Ascending(From(DueRetries(entries, at), start)), most);
    found := ReadFirst(entries, d, start, most);
    var rest := ReadRetries(entries, d, start, most - |found|, at);
    found := found + rest;
  }

  datatype DueQueue = DueQueue(held: seq<Held>, retrying: nat, nextDue: Option<nat>)

  /** What a read of `part` from `start` on finds, by recomputing all of it from the entries. */
  ghost function Naive(entries: Entries, part: Part, start: Pos, most: nat, now: int): DueQueue {
    var found := Take(Ascending(From(PartKeys(entries, part, Nanos(now)), start)), most);
    var waiting := PartKeys(entries, WaitingRetry, Nanos(now));
    DueQueue(HeldAt(entries, found), |RetryKeys(entries)|,
             if waiting == {} then None else Some(Least(waiting).due))
  }

  function HeldAt(entries: Entries, found: seq<Pos>): seq<Held> {
    if found == [] then []
    else (if found[0].place in entries then [entries[found[0].place]] else []) + HeldAt(entries, found[1..])
  }

  method ReadEntries(entries: Entries, found: seq<Pos>) returns (held: seq<Held>)
    ensures held == HeldAt(entries, found)
  {
    held := [];
    assert found[0..] == found;
    for i := 0 to |found|
      invariant held + HeldAt(entries, found[i..]) == HeldAt(entries, found)
    {
      assert found[i..][0] == found[i] && found[i..][1..] == found[i + 1..];
      ghost var rest := HeldAt(entries, found[i + 1..]);
      if found[i].place in entries {
        assert held + ([entries[found[i].place]] + rest) == (held + [entries[found[i].place]]) + rest;
        held := held + [entries[found[i].place]];
      } else {
        assert [] + rest == rest;
      }
    }
    assert found[|found|..] == [] && held + [] == held;
  }

  /** Ranges that start where a part's first was find what a scan of the queue finds. */
  method ReadDue(entries: Entries, d: DuePlaces, part: Part, start: Pos, most: nat, now: int)
    returns (read: DueQueue)
    requires NotPast(entries, d)
    ensures read == Naive(entries, part, start, most, now)
  {
    var at := Nanos(now);
    var later := Later(Pos(NextDue(at), 0), d.retry);
    ghost var waiting := PartKeys(entries, WaitingRetry, at);
    var found: seq<Pos>;
    match part {
      case DueNow =>
        found := ReadReady(entries, d, start, most, at);
      case WaitingRetry =>
        WaitingIs(entries, d, at, start);
        RegionIs(entries, Later(start, later), U64_MAX, From(waiting, start), most);
        found := Range(Indexed(entries, false), Later(start, later), U64_MAX, most);
      case FailedHere =>
        FailedIs(entries, start, most);
        found := Range(Indexed(entries, true), start, U64_MAX, most);
    }
    WaitingIs(entries, d, at, Pos(0, 0));
    assert From(waiting, Pos(0, 0)) == waiting;
    RegionIs(entries, later, U64_MAX, waiting, 1);
    var next := Range(Indexed(entries, false), later, U64_MAX, 1);
    var held := ReadEntries(entries, found);
    read := DueQueue(held, d.retrying, if next == [] then None else Some(next[0].due));
  }

  lemma WaitingIs(entries: Entries, d: DuePlaces, at: nat, start: Pos)
    requires NotPast(entries, d)
    ensures forall k :: k in From(PartKeys(entries, WaitingRetry, at), start)
              <==> k in Indexed(entries, false) && !Before(k, Later(start, Later(Pos(NextDue(at), 0), d.retry)))
                   && k.due <= U64_MAX
  {
    forall k | k in Indexed(entries, false) ensures k.due <= U64_MAX {
      DueAtMost(entries, k);
    }
  }

  lemma FailedIs(entries: Entries, start: Pos, most: nat)
    ensures Range(Indexed(entries, true), start, U64_MAX, most)
         == Take(Ascending(From(Indexed(entries, true), start)), most)
  {
    forall k | k in Indexed(entries, true) ensures k.due <= U64_MAX {
      DueAtMost(entries, k);
    }
    assert From(Indexed(entries, true), start)
        == set pos | pos in Indexed(entries, true) && !Before(pos, start) && pos.due <= U64_MAX;
  }

  predicate Shows(entries: Entries, part: Part, at: nat, place: nat) {
    exists k | k in PartKeys(entries, part, at) :: k.place == place
  }

  /** The parts share the queue out: each entry is in one of them, and in no other but where
      the clock has come to the last nanosecond a column keeps and a retry waits for it. */
  lemma PartsShareOut(entries: Entries, at: nat, place: nat)
    requires at <= U64_MAX
    ensures place in entries <==> exists part :: Shows(entries, part, at, place)
    ensures place in entries && (at < U64_MAX || entries[place].DueAt() < U64_MAX || entries[place].failed)
            ==> forall a, b :: Shows(entries, a, at, place) && Shows(entries, b, at, place) ==> a == b
    ensures place in entries && at == U64_MAX && entries[place].DueAt() == U64_MAX && !entries[place].failed
            ==> Shows(entries, DueNow, at, place) && Shows(entries, WaitingRetry, at, place)
  {
    if place in entries {
      var key := Pos(entries[place].DueAt(), place);
      assert key in Indexed(entries, entries[place].failed);
      var part := if entries[place].failed then FailedHere else if key.due <= at then DueNow else WaitingRetry;
      assert key in PartKeys(entries, part, at);
      assert Shows(entries, part, at, place);
      if key.due >= NextDue(at) && !entries[place].failed {
        assert key in PartKeys(entries, WaitingRetry, at);
      }
    }
  }

  /** A clock a column holds, past its first nanosecond and short of its last. */
  predicate Ticking(now: int) {
    0 < now < 0xFFFF_FFFF_FFFF_FFFF
  }

  /** An entry is due now where it has no retry's due time, or one that has come; waits where that
      is to come; and is among the failed where it is marked so. */
  lemma PartsAre(entries: Entries, now: int, place: nat)
    requires Ticking(now) && place in entries
    ensures var held := entries[place];
            && (Shows(entries, DueNow, Nanos(now), place) <==> !held.failed && (held.due.None? || held.due.value <= now))
            && (Shows(entries, WaitingRetry, Nanos(now), place) <==> !held.failed && held.due.Some? && held.due.value > now)
            && (Shows(entries, FailedHere, Nanos(now), place) <==> held.failed)
  {
    var key := Pos(entries[place].DueAt(), place);
    assert key in Indexed(entries, entries[place].failed);
    var part := if entries[place].failed then FailedHere else if key.due <= now then DueNow else WaitingRetry;
    assert key in PartKeys(entries, part, now);
  }

  /** It waits for a retry whose time is to come. */
  predicate WaitsFor(entries: Entries, place: nat, now: int) {
    place in entries && !entries[place].failed && entries[place].due.Some? && entries[place].due.value > now
  }

  /** None waits for an earlier time, and one waits for it, or for one past the last a column keeps
      where it is that. */
  ghost predicate Earliest(entries: Entries, now: int, due: nat) {
    && (forall place | WaitsFor(entries, place, now) :: due <= entries[place].due.value)
    && exists place ::
         WaitsFor(entries, place, now)
         && (due == entries[place].due.value || (due == 0xFFFF_FFFF_FFFF_FFFF && due <= entries[place].due.value))
  }

  /** What a read of any part says is next due is the first time a retry waits for, where one does. */
  lemma NextDueIs(entries: Entries, part: Part, start: Pos, most: nat, now: int)
    requires Ticking(now)
    ensures var read := Naive(entries, part, start, most, now);
            match read.nextDue
            case None => forall place :: !WaitsFor(entries, place, now)
            case Some(due) => Earliest(entries, now, due)
  {
    var waiting := PartKeys(entries, WaitingRetry, Nanos(now));
    forall place | WaitsFor(entries, place, now) ensures Pos(entries[place].DueAt(), place) in waiting {
      assert Pos(entries[place].DueAt(), place) in Indexed(entries, false);
    }
    if waiting != {} {
      var first := Least(waiting);
      assert first in Indexed(entries, false) && first.due == entries[first.place].DueAt();
      assert WaitsFor(entries, first.place, now);
      forall place | WaitsFor(entries, place, now) ensures first.due <= entries[place].due.value {
        assert !Before(Pos(entries[place].DueAt(), place), first);
      }
    }
  }
}
