/** The order an index's entries are found in: by the values its key holds after the columns
    asked to be equal, a due time or a place first, then what tells entries apart. */
module Order {

  datatype Pos = Pos(due: nat, place: nat)

  predicate Before(a: Pos, b: Pos) {
    a.due < b.due || (a.due == b.due && a.place < b.place)
  }

  function Later(a: Pos, b: Pos): Pos {
    if Before(a, b) then b else a
  }

  ghost predicate IsLeast(least: Pos, index: set<Pos>) {
    least in index && forall pos | pos in index :: !Before(pos, least)
  }

  lemma LeastExists(index: set<Pos>)
    requires index != {}
    ensures exists least :: IsLeast(least, index)
  {
    var some :| some in index;
    if index == {some} {
      assert IsLeast(some, index);
    } else {
      LeastExists(index - {some});
      var rest :| IsLeast(rest, index - {some});
      forall pos | pos in index ensures pos == some || !Before(pos, rest) {
        assert pos == some || pos in index - {some};
      }
      assert IsLeast(if Before(some, rest) then some else rest, index);
    }
  }

  function Least(index: set<Pos>): (least: Pos)
    requires index != {}
    ensures IsLeast(least, index)
  {
    LeastExists(index);
    var least :| least in index && forall pos | pos in index :: !Before(pos, least);
    least
  }

  function Ascending(index: set<Pos>): (found: seq<Pos>)
    ensures |found| == |index|
  {
    if index == {} then [] else [Least(index)] + Ascending(index - {Least(index)})
  }

  ghost predicate Sorted(found: seq<Pos>) {
    forall i, j | 0 <= i < j < |found| :: Before(found[i], found[j])
  }

  ghost predicate Lists(found: seq<Pos>, index: set<Pos>) {
    Sorted(found) && forall pos :: pos in found <==> pos in index
  }

  lemma {:induction false} AscendingLists(index: set<Pos>)
    ensures Lists(Ascending(index), index)
  {
    if index != {} {
      AscendingLists(index - {Least(index)});
      var rest := Ascending(index - {Least(index)});
      forall pos | pos in rest ensures Before(Least(index), pos) {
        assert pos in index && pos != Least(index);
      }
    }
  }

  lemma {:induction false} ListedOnce(one: seq<Pos>, other: seq<Pos>, index: set<Pos>)
    requires Lists(one, index) && Lists(other, index)
    ensures one == other
  {
    if one == [] {
      assert forall i | 0 <= i < |other| :: other[i] in one;
    } else {
      assert one[0] in index;
      assert one[0] in other && other[0] in one;
      var i :| 0 <= i < |other| && other[i] == one[0];
      var j :| 0 <= j < |one| && one[j] == other[0];
      assert one[0] == other[0];
      forall pos ensures pos in one[1..] <==> pos in index - {one[0]} {
        if pos in one[1..] { var k :| 0 <= k < |one[1..]| && one[1..][k] == pos; assert one[k + 1] == pos; }
      }
      forall pos ensures pos in other[1..] <==> pos in index - {one[0]} {
        if pos in other[1..] { var k :| 0 <= k < |other[1..]| && other[1..][k] == pos; assert other[k + 1] == pos; }
      }
      ListedOnce(one[1..], other[1..], index - {one[0]});
    }
  }

  lemma ListsParts(one: seq<Pos>, other: seq<Pos>, first: set<Pos>, rest: set<Pos>)
    requires Lists(one, first) && Lists(other, rest)
    requires forall a, b | a in first && b in rest :: Before(a, b)
    ensures Lists(one + other, first + rest)
  {
    forall i, j | 0 <= i < j < |one + other| ensures Before((one + other)[i], (one + other)[j]) {
      if i < |one| <= j {
        assert one[i] in first && other[j - |one|] in rest;
      }
    }
  }

  /** A part wholly before another is listed before it. */
  lemma AscendingParts(first: set<Pos>, rest: set<Pos>)
    requires forall a, b | a in first && b in rest :: Before(a, b)
    ensures Ascending(first + rest) == Ascending(first) + Ascending(rest)
  {
    hide *;
    AscendingLists(first);
    AscendingLists(rest);
    AscendingLists(first + rest);
    ListsParts(Ascending(first), Ascending(rest), first, rest);
    ListedOnce(Ascending(first + rest), Ascending(first) + Ascending(rest), first + rest);
  }

  function Take(found: seq<Pos>, most: nat): seq<Pos> {
    if |found| <= most then found else found[..most]
  }

  lemma TakeParts(first: seq<Pos>, rest: seq<Pos>, most: nat)
    ensures |Take(first, most)| <= most
    ensures Take(first + rest, most) == Take(first, most) + Take(rest, most - |Take(first, most)|)
  {
  }

  function From(index: set<Pos>, start: Pos): set<Pos> {
    set pos | pos in index && !Before(pos, start)
  }

  /** One range of an engine's index: from `start` on, due at `to` at the latest, in order,
      up to `most`. */
  function Range(index: set<Pos>, start: Pos, to: nat, most: nat): seq<Pos> {
    Take(Ascending(set pos | pos in index && !Before(pos, start) && pos.due <= to), most)
  }

  // ---- A read page after page. ----

  /** Where a read goes on after `last`: the place after its. */
  function Following(last: Pos): Pos {
    Pos(last.due, last.place + 1)
  }

  lemma RestLists(index: set<Pos>, start: Pos, found: seq<Pos>, n: nat)
    requires Lists(found, From(index, start)) && 0 < n <= |found|
    ensures Lists(found[n..], From(index, Following(found[n - 1])))
  {
    var after := From(index, Following(found[n - 1]));
    forall i | n <= i < |found| ensures found[i] in after {
      assert found[i] in From(index, start) && Before(found[n - 1], found[i]);
    }
    assert found[n - 1] in From(index, start);
    assert forall i | 0 <= i < n :: found[i] == found[n - 1] || Before(found[i], found[n - 1]);
    assert forall pos | pos in after :: pos in From(index, start) && pos in found;
  }

  lemma FewerFrom(index: set<Pos>, start: Pos, n: nat)
    requires 0 < n <= |Ascending(From(index, start))|
    ensures Ascending(From(index, Following(Ascending(From(index, start))[n - 1])))
         == Ascending(From(index, start))[n..]
  {
    var found := Ascending(From(index, start));
    AscendingLists(From(index, start));
    RestLists(index, start, found, n);
    AscendingLists(From(index, Following(found[n - 1])));
    ListedOnce(Ascending(From(index, Following(found[n - 1]))), found[n..], From(index, Following(found[n - 1])));
  }

  /** Every page read from `start` on, each from after the last of the one before it, until
      one is not full. */
  function Pages(index: set<Pos>, start: Pos, most: nat): seq<Pos>
    requires most > 0
    decreases |From(index, start)|
  {
    var page := Take(Ascending(From(index, start)), most);
    if |page| < most then page
    else
      FewerFrom(index, start, most);
      page + Pages(index, Following(page[most - 1]), most)
  }

  /** Paged through, an index gives every entry from `start` on once, in order. */
  lemma {:induction false} PagesReadAll(index: set<Pos>, start: Pos, most: nat)
    requires most > 0
    ensures Pages(index, start, most) == Ascending(From(index, start))
    decreases |From(index, start)|
  {
    var found := Ascending(From(index, start));
    var page := Take(found, most);
    if |page| == most {
      FewerFrom(index, start, most);
      assert page[most - 1] == found[most - 1];
      PagesReadAll(index, Following(page[most - 1]), most);
      assert page + found[most..] == found;
    }
  }
}
