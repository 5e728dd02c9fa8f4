/** One database of a Storage node as its history has it: the writes numbered in it, and what it
    was copied whole as before the first it took itself (`standby/ship.rs`, `standby/follow.rs`). */
module Bases {
  import opened Wrappers
  import opened Copies

  /** `copied` is what the node took the writes from `from` on top of. A whole copy reads its
      primary's entries as they are page by page: `origin` is what the primary held when it
      began, `scan` what it wrote until it ended. */
  datatype Base = Base(
    writes: seq<Changes>,
    from: nat,
    copied: Db,
    origin: Db,
    scan: seq<Changes>,
    synced: nat,            // the writes a crash keeps
    first: nat,             // the first write still kept for standbys
    position: Option<nat>)  // the number from which its position is written with each write

  /** A history begun on a database: no write of it yet. */
  function Began(db: Db): Base {
    Base([], 0, db, db, [], 0, 0, None)
  }

  function ContentAt(b: Base, n: nat): Db
    requires b.from <= n <= |b.writes|
  {
    Applied(b.copied, b.writes[b.from..n])
  }

  /** What its engine holds. */
  function Content(b: Base): Db
    requires b.from <= |b.writes|
  {
    ContentAt(b, |b.writes|)
  }

  ghost predicate ReadsSome(copied: Db, origin: Db, scan: seq<Changes>, key: Key) {
    exists m: nat :: ReadsAt(copied, origin, scan, key, m)
  }

  ghost predicate ReadsAt(copied: Db, origin: Db, scan: seq<Changes>, key: Key, m: nat) {
    m <= |scan| && At(copied, key) == At(Applied(origin, scan[..m]), key)
  }

  /** Each key is as it was at some time of the scan: not all of them at one. */
  ghost predicate Fuzzy(b: Base) {
    forall key: Key :: ReadsSome(b.copied, b.origin, b.scan, key)
  }

  /** Every key before `before` scanned, and no other. */
  ghost predicate Scanned(b: Base, before: Key) {
    && (forall key: Key | key < before :: ReadsSome(b.copied, b.origin, b.scan, key))
    && forall key: Key | key in b.copied :: key < before
  }

  /** How far what it holds reaches: past its own writes where its copy has seen later ones. */
  function Reach(b: Base): nat {
    if |b.writes| < b.from + |b.scan| then b.from + |b.scan| else |b.writes|
  }

  /** It has taken every write its copy may have seen some of. */
  predicate SettledAt(b: Base, n: nat) {
    b.from + |b.scan| <= n <= |b.writes| && b.scan <= b.writes[b.from..]
  }

  predicate Settled(b: Base) {
    SettledAt(b, |b.writes|)
  }

  lemma {:induction false} SameAfterAll(copied: Db, origin: Db, writes: seq<Changes>, key: Key, m: nat)
    requires ReadsAt(copied, origin, writes, key, m)
    ensures At(Applied(copied, writes), key) == At(Applied(origin, writes), key)
    decreases |writes|
  {
    if writes != [] {
      var last := |writes| - 1;
      var before := writes[..last];
      ApplyAt(Applied(copied, before), writes[last], key);
      ApplyAt(Applied(origin, before), writes[last], key);
      if key !in writes[last] {
        if m == |writes| {
          assert writes[..m] == writes && before[..last] == before;
          assert ReadsAt(copied, origin, before, key, last);
          SameAfterAll(copied, origin, before, key, last);
        } else {
          assert before[..m] == writes[..m];
          SameAfterAll(copied, origin, before, key, m);
        }
      }
    }
  }

  /** What was copied, with the writes of the scan taken over it, is what the primary held. */
  lemma ScanMakesWhole(b: Base)
    requires Fuzzy(b)
    ensures Applied(b.copied, b.scan) == Applied(b.origin, b.scan)
  {
    forall key: Key ensures At(Applied(b.copied, b.scan), key) == At(Applied(b.origin, b.scan), key) {
      assert ReadsSome(b.copied, b.origin, b.scan, key);
      var m: nat :| ReadsAt(b.copied, b.origin, b.scan, key, m);
      SameAfterAll(b.copied, b.origin, b.scan, key, m);
    }
    SameDb(Applied(b.copied, b.scan), Applied(b.origin, b.scan));
  }

  /** A settled database holds what its primary held, and the writes after, exactly. */
  lemma SettledHolds(b: Base, n: nat)
    requires Fuzzy(b) && b.from <= |b.writes| && SettledAt(b, n)
    ensures ContentAt(b, n) == Applied(b.origin, b.writes[b.from..n])
  {
    var taken := b.writes[b.from..n];
    var rest := taken[|b.scan|..];
    assert b.scan == b.writes[b.from..][..|b.scan|];
    assert taken == b.scan + rest;
    AppliedParts(b.copied, b.scan, rest);
    AppliedParts(b.origin, b.scan, rest);
    ScanMakesWhole(b);
  }

  lemma ReadsMore(copied: Db, origin: Db, scan: seq<Changes>, longer: seq<Changes>, key: Key)
    requires ReadsSome(copied, origin, scan, key) && scan <= longer
    ensures ReadsSome(copied, origin, longer, key)
  {
    var m: nat :| ReadsAt(copied, origin, scan, key, m);
    assert longer[..m] == scan[..m];
    assert ReadsAt(copied, origin, longer, key, m);
  }

  /** The entries of a page: the primary's, from the first key not scanned. */
  function Page(db: Db, first: Key, to: Key): Db {
    map k | k in db && first <= k < to :: db[k]
  }

  /** A scan goes on: more written meanwhile, and a page of what the primary holds then. */
  lemma PageScans(b: Base, before: Key, to: Key, longer: seq<Changes>)
    requires Scanned(b, before) && before <= to && b.scan <= longer
    ensures Scanned(b.(copied := b.copied + Page(Applied(b.origin, longer), before, to), scan := longer), to)
  {
    var db := Applied(b.origin, longer);
    var more := b.copied + Page(db, before, to);
    forall key: Key | key < to ensures ReadsSome(more, b.origin, longer, key) {
      if key < before {
        ReadsMore(b.copied, b.origin, b.scan, longer, key);
        var m: nat :| ReadsAt(b.copied, b.origin, longer, key, m);
        assert ReadsAt(more, b.origin, longer, key, m);
      } else {
        assert longer[..|longer|] == longer;
        assert ReadsAt(more, b.origin, longer, key, |longer|);
      }
    }
  }

  lemma ScanEnds(b: Base, before: Key, longer: seq<Changes>)
    requires Scanned(b, before) && b.scan <= longer
    requires forall key: Key | key in Applied(b.origin, longer) :: key < before
    ensures Fuzzy(b.(scan := longer))
  {
    forall key: Key ensures ReadsSome(b.copied, b.origin, longer, key) {
      if key < before {
        ReadsMore(b.copied, b.origin, b.scan, longer, key);
      } else {
        assert longer[..|longer|] == longer;
        assert ReadsAt(b.copied, b.origin, longer, key, |longer|);
      }
    }
  }

  lemma BeganFuzzy(db: Db)
    ensures Fuzzy(Began(db))
  {
    forall key: Key ensures ReadsSome(db, db, [], key) {
      assert ReadsAt(db, db, [], key, 0);
    }
  }
}
