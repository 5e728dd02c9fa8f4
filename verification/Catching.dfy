/** That a standby comes to what its primary holds: from any state of the cluster in which it may
    ask to follow, its own steps take it there (`standby/follow.rs`, `standby/ship.rs`). */
module Catching {
  import opened Wrappers
  import opened Copies
  import opened Bases
  import opened Standing
  import opened Clusters
  import opened Followed

  // ---- Steps of one node's. ----

  /** Steps of node `i` alone take `c` to `t`. */
  ghost predicate Goes(c: Cluster, events: seq<Event>, i: nat, t: Cluster) {
    && CanRun(c, events) && Run(c, events) == t
    && (forall k | 0 <= k < |events| :: events[k].i == i)
    && |t.nodes| == |c.nodes| && forall k | 0 <= k < |c.nodes| && k != i :: t.nodes[k] == c.nodes[k]
  }

  lemma GoesOne(c: Cluster, event: Event)
    requires Inv(c) && Enabled(c, event)
    ensures Goes(c, [event], event.i, Next(c, event)) && Inv(Next(c, event))
  {
    hide Inv, Enabled, NodeAfter;
    OfANode(c, event);
    StepKeeps(c, event);
    RunFirst(c, event, []);
    assert [event] + [] == [event];
  }

  lemma OfANode(c: Cluster, event: Event)
    requires Enabled(c, event)
    ensures event.i < |c.nodes|
  {
  }

  lemma GoesNone(c: Cluster, i: nat)
    requires Inv(c)
    ensures Goes(c, [], i, c)
  {
  }

  lemma {:induction false} RunOn(c: Cluster, first: seq<Event>, rest: seq<Event>)
    requires CanRun(c, first) && CanRun(Run(c, first), rest)
    ensures CanRun(c, first + rest) && Run(c, first + rest) == Run(Run(c, first), rest)
    decreases |first|
  {
    hide Inv, Enabled, Next;
    if first == [] {
      assert first + rest == rest;
    } else {
      assert (first + rest)[0] == first[0] && (first + rest)[1..] == first[1..] + rest;
      RunOn(Next(c, first[0]), first[1..], rest);
    }
  }

  lemma GoesOn(c: Cluster, first: seq<Event>, m: Cluster, rest: seq<Event>, i: nat, t: Cluster)
    requires Goes(c, first, i, m) && Goes(m, rest, i, t)
    ensures Goes(c, first + rest, i, t)
  {
    hide CanRun, Run;
    RunOn(c, first, rest);
  }

  // ---- Following on. ----

  predicate Follower(c: Cluster, i: nat) {
    Linked(c, i) && c.nodes[i].role.link.Following?
  }

  /** A standby takes all it was handed of a database. */
  lemma {:induction false} TakesBase(c: Cluster, i: nat, d: nat) returns (events: seq<Event>, t: Cluster)
    requires Inv(c) && Follower(c, i) && IsAt(c, i, d)
    ensures Goes(c, events, i, t) && Inv(t)
    ensures var n, m := c.nodes[i], t.nodes[i];
            && d < |n.bases| == |m.bases| && d < |n.role.link.sent| && |n.bases[d].writes| <= |n.role.link.sent[d]|
            && m == n.(bases := n.bases[d := m.bases[d]])
            && m.bases[d] == n.bases[d].(position := m.bases[d].position,
                                         writes := n.bases[d].writes + n.role.link.sent[d][|n.bases[d].writes|..])
    decreases |c.nodes[i].role.link.sent[d]| - |c.nodes[i].bases[d].writes|
  {
    hide LinkOk, Fuzzy, CanRun, Run, Goes;
    var n := c.nodes[i];
    assert NodeOk(n);
    var sent, had := n.role.link.sent[d], |n.bases[d].writes|;
    if had == |sent| {
      GoesNone(c, i);
      events, t := [], c;
      assert n.bases == n.bases[d := n.bases[d]];
    } else {
      GoesOne(c, TakeCopy(i, d));
      var next := Next(c, TakeCopy(i, d));
      hide Inv, NodeOk;
      var rest;
      rest, t := TakesBase(next, i, d);
      events := [TakeCopy(i, d)] + rest;
      GoesOn(c, [TakeCopy(i, d)], next, rest, i, t);
      assert sent[had..] == [sent[had]] + sent[had + 1..];
    }
  }

  /** What the standby is of a primary's database once it has taken all of it. */
  predicate Caught(n: Node, m: Node, p: Node, d: nat)
    requires n.role.Standby? && n.role.link.Following? && d < |n.bases| && d < |n.role.link.sent| && d < |p.bases|
  {
    && m.role == Standby(n.role.primary, Following(n.role.link.term, n.role.link.sent[d := p.bases[d].writes]))
    && |m.bases| == |n.bases| && m == n.(role := m.role, bases := n.bases[d := m.bases[d]])
    && |n.bases[d].writes| <= |p.bases[d].writes|
    && m.bases[d] == n.bases[d].(position := m.bases[d].position,
                                 writes := n.bases[d].writes + p.bases[d].writes[|n.bases[d].writes|..])
  }

  /** It is handed the rest of a database its primary still keeps, and takes it. */
  lemma CatchesBase(c: Cluster, i: nat, d: nat) returns (events: seq<Event>, t: Cluster)
    requires Inv(c) && Follower(c, i) && IsAt(c, i, d)
    requires d < |c.nodes[i].role.link.sent| && d < |PrimaryOf(c, i).bases|
    requires PrimaryOf(c, i).bases[d].first <= |c.nodes[i].role.link.sent[d]|
    ensures Goes(c, events, i, t) && Inv(t) && Follower(t, i)
    ensures Caught(c.nodes[i], t.nodes[i], PrimaryOf(c, i), d)
  {
    hide Fuzzy, CanRun, Run, Goes;
    var p := PrimaryOf(c, i);
    assert NodeOk(c.nodes[i]) && LinkOk(c.nodes[i], p);
    var ship := Ship(i, d, |p.bases[d].writes|);
    GoesOne(c, ship);
    var next := Next(c, ship);
    assert p.bases[d].writes[..|p.bases[d].writes|] == p.bases[d].writes;
    var rest;
    hide Inv, NodeOk, LinkOk;
    rest, t := TakesBase(next, i, d);
    events := [ship] + rest;
    GoesOn(c, [ship], next, rest, i, t);
    assert PrimaryOf(t, i) == p by { GoesBeside(next, rest, i, t, c.nodes[i].role.primary); }
  }

  lemma GoesBeside(c: Cluster, events: seq<Event>, i: nat, t: Cluster, k: nat)
    requires Goes(c, events, i, t) && k < |c.nodes| && k != i
    ensures |t.nodes| == |c.nodes| && t.nodes[k] == c.nodes[k]
  {
  }

  /** A follower whose primary still keeps what follows what it was handed: its own steps bring it
      every write it is short of, of every database. */
  lemma CatchesUp(c: Cluster, i: nat) returns (events: seq<Event>, t: Cluster)
    requires Inv(c) && Follower(c, i) && |c.nodes[i].role.link.sent| == |PrimaryOf(c, i).bases| == DATABASES
    requires |c.nodes[i].bases| == DATABASES
    requires forall d | 0 <= d < DATABASES :: PrimaryOf(c, i).bases[d].first <= |c.nodes[i].role.link.sent[d]|
    ensures Goes(c, events, i, t) && Inv(t) && Follower(t, i)
    ensures var n, m, p := c.nodes[i], t.nodes[i], PrimaryOf(c, i);
            && PrimaryOf(t, i) == p && m.history == n.history && m.epoch == n.epoch && |m.bases| == DATABASES
            && forall d | 0 <= d < DATABASES ::
                 && |n.bases[d].writes| <= |p.bases[d].writes|
                 && m.bases[d] == n.bases[d].(position := m.bases[d].position,
                                              writes := n.bases[d].writes + p.bases[d].writes[|n.bases[d].writes|..])
  {
    hide Inv, CanRun, Run, Goes;
    var p := PrimaryOf(c, i);
    var other := c.nodes[i].role.primary;
    NotOwn(c, i);
    var e0, t0 := CatchesBase(c, i, 0);
    GoesBeside(c, e0, i, t0, other);
    var e1, t1 := CatchesBase(t0, i, 1);
    GoesBeside(t0, e1, i, t1, other);
    var e2;
    e2, t := CatchesBase(t1, i, 2);
    GoesBeside(t1, e2, i, t, other);
    GoesOn(c, e0, t0, e1, i, t1);
    GoesOn(c, e0 + e1, t1, e2, i, t);
    events := e0 + e1 + e2;
  }

  lemma NotOwn(c: Cluster, i: nat)
    requires Inv(c) && i < |c.nodes| && c.nodes[i].role.Standby?
    ensures c.nodes[i].role.primary < |c.nodes| && c.nodes[i].role.primary != i
  {
  }

  // ---- Copied whole. ----

  /** A database copied in one page, nothing written meanwhile. */
  function CopiedAt(p: Base): Base
    requires p.from <= |p.writes|
  {
    CopyOf(p).(copied := Content(p))
  }

  /** A primary's databases, in order. */
  predicate Primed(c: Cluster, i: nat) {
    && Linked(c, i) && |PrimaryOf(c, i).bases| == DATABASES
    && forall d | 0 <= d < DATABASES :: PrimaryOf(c, i).bases[d].from <= |PrimaryOf(c, i).bases[d].writes|
  }

  /** The copy is about to scan the database after those of `done`. */
  predicate AboutTo(c: Cluster, i: nat, done: seq<Base>) {
    && Primed(c, i) && |done| < DATABASES
    && c.nodes[i].role.link
       == Copying(PrimaryOf(c, i).role.term, Whole(PrimaryOf(c, i).history, done, CopyOf(PrimaryOf(c, i).bases[|done|]), 0))
  }

  /** A key past all of a database's. */
  lemma {:induction false} PastAll(keys: set<Key>) returns (to: Key)
    ensures forall k | k in keys :: k < to
    decreases |keys|
  {
    if keys == {} {
      to := 0;
    } else {
      var one :| one in keys;
      assert forall k | k in keys :: k == one || k in keys - {one};
      to := PastAll(keys - {one});
      to := if one < to then to else one + 1;
    }
  }

  lemma ScansAll(p: Base, history: nat, done: seq<Base>, to: Key)
    requires p.from <= |p.writes| && forall k | k in Content(p) :: k < to
    ensures Scanning(Whole(history, done, CopyOf(p), 0), p, to) == Whole(history, done, CopiedAt(p), to)
  {
    var w := Whole(history, done, CopyOf(p), 0);
    var db := Content(p);
    assert Page(db, 0, to) == db;
    assert w.now.copied + db == db;
    assert p.writes[w.now.from..] == [];
    var scanned := Scanning(w, p, to);
    assert scanned.now == CopiedAt(p) && scanned.done == done && scanned.history == history && scanned.before == to;
    assert scanned == Whole(scanned.history, scanned.done, scanned.now, scanned.before);
  }

  /** The copy has the databases of `done`, and goes on to the next; or has them all. */
  predicate Copied(c: Cluster, i: nat, done: seq<Base>) {
    if |done| < DATABASES then AboutTo(c, i, done)
    else
      && Primed(c, i)
      && var n, p := c.nodes[i], PrimaryOf(c, i);
         && n.role.link == Following(p.role.term, WritesOf(done)) && n.history == p.history && !n.copying
         && n.bases == done
  }

  lemma CopiesBase(c: Cluster, i: nat, done: seq<Base>) returns (events: seq<Event>, t: Cluster)
    requires Inv(c) && Copied(c, i, done) && |done| < DATABASES && Linked(c, i) && |done| < |PrimaryOf(c, i).bases|
    requires PrimaryOf(c, i).bases[|done|].from <= |PrimaryOf(c, i).bases[|done|].writes|
    ensures Goes(c, events, i, t) && Inv(t) && Linked(t, i) && PrimaryOf(t, i) == PrimaryOf(c, i)
    ensures Copied(t, i, done + [CopiedAt(PrimaryOf(c, i).bases[|done|])])
  {
    hide Content, CanRun, Run, Goes;
    var p := PrimaryOf(c, i);
    var pb := p.bases[|done|];
    var to := PastAll(Content(pb).Keys);
    ScansAll(pb, p.history, done, to);
    GoesOne(c, TakePage(i, to));
    var next := Next(c, TakePage(i, to));
    NotOwn(c, i);
    hide Inv;
    assert pb.writes[|pb.writes|..] == [];
    assert PrimaryOf(next, i) == p;
    assert next.nodes[i].role.link == Copying(p.role.term, Whole(p.history, done, CopiedAt(pb), to));
    GoesOne(next, EndBase(i));
    t := Next(next, EndBase(i));
    events := [TakePage(i, to)] + [EndBase(i)];
    GoesOn(c, [TakePage(i, to)], next, [EndBase(i)], i, t);
  }

  /** One whose primary no longer keeps what follows what it has, or that is of another history: its
      own steps make each of its databases what the primary's is. */
  lemma CopiesWhole(c: Cluster, i: nat) returns (events: seq<Event>, t: Cluster)
    requires Inv(c) && Enabled(c, StartWhole(i))
    ensures Goes(c, events, i, t) && Inv(t)
    ensures Primed(t, i) && PrimaryOf(t, i) == PrimaryOf(c, i) && t.nodes[i].role.link.Following?
    ensures var m, p := t.nodes[i], PrimaryOf(c, i);
            && m.history == p.history && !m.copying && |m.bases| == DATABASES
            && forall d | 0 <= d < DATABASES :: m.bases[d] == CopiedAt(p.bases[d])
  {
    hide CanRun, Run, Goes, Fuzzy, Next, Copied, AboutTo, CopiedAt, Linked, CopyOf, Content;
    var t0 := Begins(c, i);
    var p := PrimaryOf(c, i);
    var one, two, three := CopiedAt(p.bases[0]), CopiedAt(p.bases[1]), CopiedAt(p.bases[2]);
    hide Inv, Enabled;
    var e1, t1 := CopiesBase(t0, i, []);
    assert [] + [one] == [one];
    var e2, t2 := CopiesBase(t1, i, [one]);
    assert [one] + [two] == [one, two];
    var e3;
    e3, t := CopiesBase(t2, i, [one, two]);
    assert [one, two] + [three] == [one, two, three];
    CopiedAll(t, i, [one, two, three]);
    GoesOn(c, [StartWhole(i)], t0, e1, i, t1);
    GoesOn(c, [StartWhole(i)] + e1, t1, e2, i, t2);
    GoesOn(c, [StartWhole(i)] + e1 + e2, t2, e3, i, t);
    events := [StartWhole(i)] + e1 + e2 + e3;
  }

  lemma Begins(c: Cluster, i: nat) returns (t: Cluster)
    requires Inv(c) && Enabled(c, StartWhole(i))
    ensures Goes(c, [StartWhole(i)], i, t) && Inv(t)
    ensures Linked(t, i) && PrimaryOf(t, i) == PrimaryOf(c, i) && |PrimaryOf(c, i).bases| == DATABASES
    ensures forall d | 0 <= d < DATABASES :: PrimaryOf(c, i).bases[d].from <= |PrimaryOf(c, i).bases[d].writes|
    ensures Copied(t, i, [])
  {
    hide CanRun, Run, Goes, Fuzzy;
    NotOwn(c, i);
    assert NodeOk(PrimaryOf(c, i));
    GoesOne(c, StartWhole(i));
    t := Next(c, StartWhole(i));
    assert PrimaryOf(t, i) == PrimaryOf(c, i) && AboutTo(t, i, []);
  }

  lemma CopiedAll(c: Cluster, i: nat, done: seq<Base>)
    requires |done| == DATABASES && Copied(c, i, done)
    ensures Primed(c, i) && c.nodes[i].role.link.Following?
    ensures c.nodes[i].history == PrimaryOf(c, i).history && !c.nodes[i].copying && c.nodes[i].bases == done
  {
  }

  lemma CopiedIs(p: Base)
    requires p.from <= |p.writes|
    ensures var b := CopiedAt(p); b.writes == p.writes && b.from <= |b.writes| && Settled(b) && Content(b) == Content(p)
  {
    assert p.writes[|p.writes|..] == [];
  }

  /** So from whatever state, a standby that may ask its primary to follow comes, by its own steps
      alone, to follow it with as many writes of each database as the primary has; and where it is
      copied whole, with its databases. */
  lemma GetsLevel(c: Cluster, i: nat) returns (events: seq<Event>, t: Cluster)
    requires Inv(c) && CanAsk(c, i)
    ensures Goes(c, events, i, t) && Inv(t) && Follower(t, i)
    ensures var n, m, p := c.nodes[i], t.nodes[i], PrimaryOf(c, i);
            && PrimaryOf(t, i) == p && m.history == p.history && |m.bases| == |p.bases| == DATABASES
            && forall d | 0 <= d < DATABASES ::
                 && |m.bases[d].writes| == |p.bases[d].writes|
                 && (CanFollow(p, n) && n.bases[d].writes <= p.bases[d].writes ==> m.bases[d].writes == p.bases[d].writes)
                 && (!CanFollow(p, n) ==>
                       && p.bases[d].from <= |p.bases[d].writes| && m.bases[d].from <= |m.bases[d].writes|
                       && Content(m.bases[d]) == Content(p.bases[d]))
  {
    hide CanRun, Run, Goes, Fuzzy;
    var n, p := c.nodes[i], PrimaryOf(c, i);
    NotOwn(c, i);
    assert NodeOk(n) && NodeOk(p);
    if CanFollow(p, n) {
      GoesOne(c, FollowOn(i));
      var next := Next(c, FollowOn(i));
      assert PrimaryOf(next, i) == p && next.nodes[i].bases == n.bases;
      hide Inv, NodeOk, LinkOk;
      var rest;
      rest, t := CatchesUp(next, i);
      events := [FollowOn(i)] + rest;
      GoesOn(c, [FollowOn(i)], next, rest, i, t);
    } else {
      events, t := CopiesWhole(c, i);
      forall d | 0 <= d < DATABASES
        ensures t.nodes[i].bases[d].writes == p.bases[d].writes && Content(t.nodes[i].bases[d]) == Content(p.bases[d])
      {
        CopiedIs(p.bases[d]);
      }
    }
  }
}
