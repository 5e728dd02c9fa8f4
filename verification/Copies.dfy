/** A primary's writes, numbered as its engine took them and kept for its standbys, and a standby
    that takes them in order, or the whole of a database first (`standby/copies.rs`,
    `standby/ship.rs`, `standby/follow.rs`). One database of a node's; each is copied so. */
module Copies {
  import opened Wrappers

  type Key = nat
  type Value = nat
  type Changes = map<Key, Option<Value>>
  type Db = map<Key, Value>

  function Apply(db: Db, batch: Changes): Db {
    map k | k in db.Keys + batch.Keys && (k in batch ==> batch[k].Some?) ::
      if k in batch then batch[k].value else db[k]
  }

  function At(db: Db, key: Key): Option<Value> {
    if key in db then Some(db[key]) else None
  }

  lemma ApplyAt(db: Db, batch: Changes, key: Key)
    ensures At(Apply(db, batch), key) == if key in batch then batch[key] else At(db, key)
  {
  }

  /** A database after writes taken one after another. */
  function Applied(db: Db, writes: seq<Changes>): Db {
    if writes == [] then db else Apply(Applied(db, writes[..|writes| - 1]), writes[|writes| - 1])
  }

  lemma {:induction false} AppliedParts(db: Db, first: seq<Changes>, rest: seq<Changes>)
    ensures Applied(db, first + rest) == Applied(Applied(db, first), rest)
    decreases |rest|
  {
    if rest == [] {
      assert first + rest == first;
    } else {
      var all, last := first + rest, |rest| - 1;
      assert all[..|all| - 1] == first + rest[..last] && all[|all| - 1] == rest[last];
      AppliedParts(db, first, rest[..last]);
    }
  }

  lemma SameDb(a: Db, b: Db)
    requires forall k: Key :: At(a, k) == At(b, k)
    ensures a == b
  {
    forall k: Key ensures (k in a <==> k in b) && (k in a ==> a[k] == b[k]) {
      assert At(a, k) == At(b, k);
    }
  }

  // ---- The writes a primary keeps. ----

  datatype Copy = Copy(number: nat, changes: Changes)

  datatype Behind = Another | Past

  function Size(batch: Changes): nat {
    |batch|
  }

  function SizeOf(writes: seq<Copy>): nat {
    if writes == [] then 0 else Size(writes[0].changes) + SizeOf(writes[1..])
  }

  lemma {:induction false} SizeAppends(writes: seq<Copy>, one: Copy)
    ensures SizeOf(writes + [one]) == SizeOf(writes) + Size(one.changes)
  {
    if writes != [] {
      assert (writes + [one])[1..] == writes[1..] + [one];
      SizeAppends(writes[1..], one);
    } else {
      assert writes + [one] == [one] && [one][1..] == [];
    }
  }

  /** One database's writes as kept, oldest first: the last of its history. */
  class Kept {
    ghost var history: seq<Changes>
    var next: nat
    var writes: seq<Copy>
    var bytes: nat

    ghost predicate Valid()
      reads this
    {
      && next == |history| && |writes| <= next
      && (forall i | 0 <= i < |writes| ::
            writes[i].number == next - |writes| + i && writes[i].changes == history[writes[i].number])
      && bytes == SizeOf(writes)
    }

    /** Nothing kept, of a history already `start` writes on. */
    constructor (start: nat, ghost past: seq<Changes>)
      requires |past| == start
      ensures Valid() && history == past && next == start && writes == []
    {
      history, next, writes, bytes := past, start, [], 0;
    }

    /** A write kept under the next number, and the oldest let go of past `most` bytes, none that
        would have been within them; the write itself always kept. */
    method Keep(changes: Changes, most: nat)
      requires Valid()
      modifies this
      ensures Valid() && history == old(history) + [changes]
      ensures |writes| > 0 && |writes| <= |old(writes)| + 1
      ensures writes == (old(writes) + [Copy(old(next), changes)])[|old(writes)| + 1 - |writes|..]
      ensures |writes| == 1 || SizeOf(writes) <= most
      ensures |writes| <= |old(writes)| ==>
                SizeOf((old(writes) + [Copy(old(next), changes)])[|old(writes)| - |writes|..]) > most
    {
      SizeAppends(writes, Copy(next, changes));
      history := history + [changes];
      bytes := bytes + Size(changes);
      writes := writes + [Copy(next, changes)];
      next := next + 1;
      LetGo(most);
    }

    /** The oldest let go of while more than `most` bytes are kept, the last never. */
    method LetGo(most: nat)
      requires Valid() && |writes| > 0
      modifies this`writes, this`bytes
      ensures Valid() && 0 < |writes| <= |old(writes)|
      ensures writes == old(writes)[|old(writes)| - |writes|..]
      ensures |writes| == 1 || SizeOf(writes) <= most
      ensures |writes| < |old(writes)| ==> SizeOf(old(writes)[|old(writes)| - |writes| - 1..]) > most
    {
      while bytes > most && |writes| > 1
        invariant Valid() && 0 < |writes| <= |old(writes)|
        invariant writes == old(writes)[|old(writes)| - |writes|..]
        invariant |writes| < |old(writes)| ==> SizeOf(old(writes)[|old(writes)| - |writes| - 1..]) > most
        decreases |writes|
      {
        bytes := bytes - Size(writes[0].changes);
        writes := writes[1..];
      }
    }

    function First(): nat
      reads this
    {
      if writes == [] then next else writes[0].number
    }

    /** The writes from the number `start` on, until they are `most` bytes or there is no more, one
        at least where there is one: each as the engine took it, in order with none left out. None
        where what follows `start` is no longer kept. */
    method Since(start: nat, most: nat) returns (taken: Option<seq<Copy>>)
      requires Valid()
      ensures taken.None? <==> start < next - |writes|
      ensures taken.Some? && start >= next ==> taken.value == []
      ensures taken.Some? && start < next ==> 0 < |taken.value| <= next - start
      ensures taken.Some? ==> forall i | 0 <= i < |taken.value| ::
                start + i < |history| && taken.value[i] == Copy(start + i, history[start + i])
      ensures taken.Some? && start < next ==>
                && (|taken.value| < next - start ==> SizeOf(taken.value) >= most)
                && (|taken.value| > 1 ==> SizeOf(taken.value[..|taken.value| - 1]) < most)
    {
      if start >= next {
        return Some([]);
      }
      if start < First() {
        return None;
      }
      var found: seq<Copy> := [];
      var size := 0;
      var i := start - First();
      assert First() == next - |writes|;
      while i < |writes| && (size < most || found == [])
        invariant start - First() <= i <= |writes| && |found| == i - (start - First())
        invariant forall j | 0 <= j < |found| ::
            start + j < |history| && found[j] == Copy(start + j, history[start + j])
        invariant size == SizeOf(found)
        invariant |found| > 1 ==> SizeOf(found[..|found| - 1]) < most
      {
        SizeAppends(found, writes[i]);
        assert (found + [writes[i]])[..|found|] == found;
        size := size + Size(writes[i].changes);
        found := found + [writes[i]];
        i := i + 1;
      }
      return Some(found);
    }
  }

  /** Each database's writes as a node keeps them, and the history they are numbered in. */
  class Numbered {
    var history: nat
    var kept: seq<Kept>

    ghost predicate Valid()
      reads this, kept
    {
      forall d | 0 <= d < |kept| :: kept[d].Valid()
    }

    constructor (history: nat, starts: seq<nat>, ghost pasts: seq<seq<Changes>>)
      requires |pasts| == |starts| && forall d | 0 <= d < |starts| :: |pasts[d]| == starts[d]
      ensures Valid() && this.history == history && |kept| == |starts|
      ensures forall d | 0 <= d < |starts| ::
                fresh(kept[d]) && kept[d].next == starts[d] && kept[d].writes == [] && kept[d].history == pasts[d]
    {
      this.history, kept := history, [];
      new;
      Restart(history, starts, pasts);
    }

    /** Another history from `starts` on, nothing kept: once copied whole, or promoted with none. */
    method Restart(history: nat, starts: seq<nat>, ghost pasts: seq<seq<Changes>>)
      requires |pasts| == |starts| && forall d | 0 <= d < |starts| :: |pasts[d]| == starts[d]
      modifies this
      ensures Valid() && this.history == history && |kept| == |starts|
      ensures forall d | 0 <= d < |starts| ::
                fresh(kept[d]) && kept[d].next == starts[d] && kept[d].writes == [] && kept[d].history == pasts[d]
    {
      var all: seq<Kept> := [];
      for d := 0 to |starts|
        invariant |all| == d
        invariant forall e | 0 <= e < d :: fresh(all[e]) && all[e].Valid()
        invariant forall e | 0 <= e < d :: all[e].next == starts[e] && all[e].writes == [] && all[e].history == pasts[e]
      {
        var one := new Kept(starts[d], pasts[d]);
        all := all + [one];
      }
      this.history, kept := history, all;
    }

    /** The writes of a database from `start` on are kept, none let go of. */
    predicate CanTake(d: nat, start: nat)
      requires d < |kept|
      reads this, kept
    {
      kept[d].next <= start + |kept[d].writes| && start <= kept[d].next
    }

    /** Whether a standby of history `asked` whose next writes are `next` can take this node's on
        from there: of this history, past none of its writes, and short of none let go of. */
    method Follows(asked: nat, next: seq<nat>) returns (behind: Option<Behind>)
      requires Valid() && |next| == |kept|
      ensures behind.None? <==> asked == history && forall d | 0 <= d < |kept| :: CanTake(d, next[d])
      ensures asked != history ==> behind == Some(Another)
      ensures behind.Some? && asked == history ==>
                exists d | 0 <= d < |kept| ::
                  !CanTake(d, next[d]) && (forall e | 0 <= e < d :: CanTake(e, next[e]))
                  && behind.value == if next[d] > kept[d].next then Another else Past
    {
      if asked != history {
        return Some(Another);
      }
      for d := 0 to |kept|
        invariant forall e | 0 <= e < d :: CanTake(e, next[e])
      {
        assert kept[d].Valid();
        if next[d] > kept[d].next {
          return Some(Another);
        }
        if next[d] < kept[d].First() {
          return Some(Past);
        }
      }
      return None;
    }
  }
}
