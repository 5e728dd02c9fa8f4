/** What the Storage node promoted holds of what the others do, and runs in which that is not all
    of it (`standby/finding.rs`, `standby/shipped.rs`, `standby/follow.rs`). */
module Promotions {
  import opened Wrappers
  import opened Copies
  import opened Bases
  import opened Standing
  import opened Clusters
  import opened Followed
  import opened Histories

  // ---- The best of those that answered. ----

  /** Every write `other` has of its history `n` has too, under its number. */
  predicate HoldsWrites(n: Node, other: Node) {
    && n.history == other.history && |n.bases| == |other.bases|
    && forall d | 0 <= d < |n.bases| :: other.bases[d].writes <= n.bases[d].writes
  }

  predicate AnyPast(a: seq<nat>, b: seq<nat>) {
    exists d | 0 <= d < |a| && d < |b| :: a[d] > b[d]
  }

  /** Each is further on than the other in some database. */
  predicate Crossed(a: seq<nat>, b: seq<nat>) {
    AnyPast(a, b) && AnyPast(b, a)
  }

  lemma SaysNext(c: Cluster, i: nat)
    requires Inv(c) && i < |c.nodes|
    ensures var next := SaysOf(c.nodes[i]).next;
            |next| == DATABASES == |c.nodes[i].bases| && forall d | 0 <= d < DATABASES :: next[d] == |c.nodes[i].bases[d].writes|
  {
    assert NodeOk(c.nodes[i]);
  }

  /** Of two nodes of one line, one holds the other's writes where it is nowhere behind. */
  lemma HoldsWhereAtLeast(c: Cluster, i: nat, j: nat)
    requires Inv(c) && OneLine(c) && i < |c.nodes| && j < |c.nodes| && c.nodes[i].history == c.nodes[j].history
    ensures HoldsWrites(c.nodes[i], c.nodes[j]) <==> AtLeast(SaysOf(c.nodes[i]).next, SaysOf(c.nodes[j]).next)
  {
    SaysNext(c, i);
    SaysNext(c, j);
    assert NodeOk(c.nodes[i]) && NodeOk(c.nodes[j]);
    if c.nodes[i].history != 0 {
      assert WritesIn(c.nodes[i], c.lines[c.nodes[i].history]) && WritesIn(c.nodes[j], c.lines[c.nodes[j].history]);
    }
  }

  /** The best of those that answered holds what another of them does exactly where both are of
      one history and, of one epoch, neither is past the other in one database and behind it in
      another; or, of an earlier, where that one is past it in none. */
  lemma BestHoldsOther(c: Cluster, answered: seq<nat>, i: nat, j: nat)
    requires Inv(c) && OneLine(c) && i < |c.nodes| && AreNodes(c, answered) && IsBest(Answers(c, answered), Answer(c, i))
    requires j in answered && !c.nodes[j].copying
    ensures c.nodes[j].epoch <= c.nodes[i].epoch
    ensures HoldsWrites(c.nodes[i], c.nodes[j]) <==>
              && c.nodes[i].history == c.nodes[j].history
              && var mine, others := SaysOf(c.nodes[i]).next, SaysOf(c.nodes[j]).next;
                 if c.nodes[j].epoch == c.nodes[i].epoch then !Crossed(mine, others) else !AnyPast(others, mine)
  {
    var a :| 0 <= a < |answered| && answered[a] == j;
    assert Answers(c, answered)[a] == Answer(c, j);
    SaysNext(c, i);
    SaysNext(c, j);
    var mine, others := SaysOf(c.nodes[i]).next, SaysOf(c.nodes[j]).next;
    assert j == i || Better(Answer(c, i), Answer(c, j));
    if c.nodes[i].history == c.nodes[j].history {
      HoldsWhereAtLeast(c, i, j);
      assert !AnyPast(others, mine) <==> AtLeast(mine, others);
      if !AnyPast(mine, others) {
        assert AtLeast(others, mine);
        SumAtLeast(others, mine);
      }
    }
  }

  /** So the one promoted holds every candidate's writes exactly where that holds of each. */
  lemma PromotedHoldsAll(c: Cluster, i: nat, answered: seq<nat>, named: nat)
    requires Inv(c) && OneLine(c) && Enabled(c, Promote(i, answered, named))
    ensures (forall j | j in answered && !c.nodes[j].copying :: HoldsWrites(c.nodes[i], c.nodes[j])) <==>
            (forall j | j in answered && !c.nodes[j].copying :: InStep(c.nodes[i], c.nodes[j]))
  {
    hide Inv, OneLine, HoldsWrites;
    forall j | j in answered && !c.nodes[j].copying ensures HoldsWrites(c.nodes[i], c.nodes[j]) <==> InStep(c.nodes[i], c.nodes[j]) {
      BestHoldsOther(c, answered, i, j);
    }
  }

  /** Of one history; and of one epoch not crossed, of two not past the later. */
  predicate InStep(n: Node, other: Node) {
    && n.history == other.history
    && if other.epoch == n.epoch then !Crossed(SaysOf(n).next, SaysOf(other).next)
       else !AnyPast(SaysOf(other).next, SaysOf(n).next)
  }

  // ---- Runs. ----

  /** Some run from nodes just started comes to it. */
  ghost predicate Reached(c: Cluster) {
    exists start: Cluster, events: seq<Event> :: Comes(start, events, c)
  }

  ghost predicate Comes(start: Cluster, events: seq<Event>, c: Cluster) {
    Fresh(start) && CanRun(start, events) && Run(start, events) == c
  }

  lemma {:induction false} RunThen(c: Cluster, events: seq<Event>, event: Event)
    requires CanRun(c, events) && Enabled(Run(c, events), event)
    ensures Inv(Run(c, events)) && CanRun(c, events + [event])
    ensures Run(c, events + [event]) == Next(Run(c, events), event)
    decreases |events|
  {
    RunKeeps(c, events);
    if events == [] {
      StepKeeps(c, event);
      assert [] + [event] == [event] && [event][1..] == [];
    } else {
      RunThen(Next(c, events[0]), events[1..], event);
      assert (events + [event])[0] == events[0] && (events + [event])[1..] == events[1..] + [event];
    }
  }

  lemma ReachedNext(c: Cluster, event: Event)
    requires Reached(c) && Inv(c) && Enabled(c, event)
    ensures Reached(Next(c, event)) && Inv(Next(c, event))
  {
    hide Inv, Enabled, Next, CanRun, Run, Fresh;
    var start: Cluster, events: seq<Event> :| Comes(start, events, c);
    RunThen(start, events, event);
    StepKeeps(c, event);
    assert Comes(start, events + [event], Next(c, event));
  }

  /** Three Storage nodes of an empty Ledger. */
  function Empty(): Node {
    Node.Node(Finding, 0, 0, 0, false, [Began(map[]), Began(map[]), Began(map[])])
  }

  function Started(): Cluster {
    Cluster([Empty(), Empty(), Empty()], 0, map[])
  }

  lemma StartedReached()
    ensures Reached(Started()) && Inv(Started())
  {
    FreshHolds(Started());
    assert CanRun(Started(), []) && Run(Started(), []) == Started();
    assert Comes(Started(), [], Started());
  }

  /** A primary that has written nothing yet. */
  predicate Blank(p: Node) {
    p.role.Primary? && p.history != 0 && |p.bases| == DATABASES
    && forall d | 0 <= d < DATABASES :: p.bases[d].writes == [] && p.bases[d].copied == map[] && p.bases[d].from == 0
  }

  function Copied(): Base {
    Base([], 0, map[], map[], [], 0, 0, Some(0))
  }

  /** One copied whole from it. */
  function Joined(p: nat, primary: Node): Node
    requires primary.role.Primary?
  {
    Node.Node(Standby(p, Following(primary.role.term, [[], [], []])), primary.epoch, 0, primary.history, false,
              [Copied(), Copied(), Copied()])
  }

  lemma JoinsBlank(c: Cluster, i: nat, p: nat) returns (t: Cluster)
    requires Reached(c) && Inv(c) && i < |c.nodes| && p < |c.nodes| && i != p
    requires Blank(c.nodes[p]) && c.nodes[i].role.Finding? && c.nodes[i].epoch <= c.nodes[p].epoch
    requires c.nodes[i].history != c.nodes[p].history
    ensures Reached(t) && Inv(t) && t == c.(nodes := c.nodes[i := Joined(p, c.nodes[p])])
  {
    hide Inv, Reached;
    var primary := c.nodes[p];
    ReachedNext(c, Finds(i, p));
    var c1 := Next(c, Finds(i, p));
    ReachedNext(c1, StartWhole(i));
    var c2 := Next(c1, StartWhole(i));
    assert c2.nodes[i] == StartedWhole(c1.nodes[i], primary);
    assert CopyOf(primary.bases[0]) == CopyOf(primary.bases[1]) == CopyOf(primary.bases[2]) == Copied();
    ReachedNext(c2, EndBase(i));
    var c3 := Next(c2, EndBase(i));
    assert c3.nodes[i].role.link == Copying(primary.role.term, Whole(primary.history, [Copied()], Copied(), 0));
    ReachedNext(c3, EndBase(i));
    var c4 := Next(c3, EndBase(i));
    assert c4.nodes[i].role.link == Copying(primary.role.term, Whole(primary.history, [Copied()] + [Copied()], Copied(), 0));
    ReachedNext(c4, EndBase(i));
    t := Next(c4, EndBase(i));
    assert t.nodes[i].bases == [Copied(), Copied(), Copied()];
    assert WritesOf(t.nodes[i].bases) == [[], [], []];
  }

  /** The only one that answers, promoted. */
  lemma Begins(c: Cluster, i: nat, named: nat) returns (t: Cluster)
    requires Reached(c) && Inv(c) && i < |c.nodes| && c.nodes[i].role.Finding? && !c.nodes[i].copying
    requires c.nodes[i].history == 0 ==> named != 0 && named !in c.lines
    ensures Reached(t) && Inv(t)
    ensures t.terms == c.terms + 1 && |t.nodes| == |c.nodes| && t.nodes == c.nodes[i := t.nodes[i]]
    ensures t.nodes[i] == Node.Node(Role.Primary(c.terms + 1), c.nodes[i].epoch + 1, c.nodes[i].epoch + 1,
                                    if c.nodes[i].history == 0 then named else c.nodes[i].history, false,
                                    Unpositioned(c.nodes[i].bases))
    ensures t.lines.Keys == c.lines.Keys + {t.nodes[i].history}
  {
    hide Inv, Reached;
    assert Answers(c, [i]) == [Answer(c, i)];
    assert [i][1..] == [];
    assert Latest(c, [i]) == Max(c.nodes[i].epoch, 0);
    ReachedNext(c, Promote(i, [i], named));
    t := Next(c, Promote(i, [i], named));
  }

  /** A primary and two standbys copied whole from it. */
  lemma Together() returns (c: Cluster)
    ensures Reached(c) && Inv(c) && c.terms == 1 && c.lines.Keys == {7} && |c.nodes| == 3
    ensures c.nodes[0] == Node.Node(Role.Primary(1), 1, 1, 7, false, [Began(map[]), Began(map[]), Began(map[])])
    ensures c.nodes[1] == c.nodes[2] == Joined(0, c.nodes[0])
  {
    StartedReached();
    hide Inv, Reached, Enabled, Next;
    var c1 := Begins(Started(), 0, 7);
    assert Unpositioned(Empty().bases) == [Began(map[]), Began(map[]), Began(map[])];
    var c2 := JoinsBlank(c1, 1, 0);
    c := JoinsBlank(c2, 2, 0);
  }

  /** A standby that follows `p`, has all it wrote of a database, and can go on. */
  predicate InHand(c: Cluster, p: nat, i: nat, d: nat) {
    && IsAt(c, p, d) && IsAt(c, i, d) && c.nodes[p].role.Primary? && i != p
    && c.nodes[i].role.Standby? && c.nodes[i].role.primary == p && c.nodes[i].role.link.Following?
    && c.nodes[i].role.link.term == c.nodes[p].role.term && d < |c.nodes[i].role.link.sent|
    && c.nodes[p].bases[d].first == 0 && c.nodes[i].bases[d].position.Some?
    && c.nodes[i].role.link.sent[d] == c.nodes[p].bases[d].writes
    && |c.nodes[i].bases[d].writes| == |c.nodes[p].bases[d].writes|
  }

  function Wrote(n: Node, d: nat, batch: Changes): Node
    requires d < |n.bases|
  {
    n.(bases := n.bases[d := n.bases[d].(writes := n.bases[d].writes + [batch])])
  }

  function Handed(n: Node, d: nat, sent: seq<Changes>): Node
    requires n.role.Standby? && n.role.link.Following? && d < |n.role.link.sent|
  {
    n.(role := Standby(n.role.primary, Following(n.role.link.term, n.role.link.sent[d := sent])))
  }

  lemma HandsOver(c: Cluster, p: nat, i: nat, d: nat, batch: Changes) returns (t: Cluster)
    requires Reached(c) && Inv(c) && InHand(c, p, i, d)
    ensures Reached(t) && Inv(t) && t.terms == c.terms && |t.nodes| == |c.nodes|
    ensures c.nodes[p].history in c.lines ==> t.lines.Keys == c.lines.Keys
    ensures t.nodes == c.nodes[p := Wrote(c.nodes[p], d, batch)][i := Handed(c.nodes[i], d, c.nodes[p].bases[d].writes + [batch])]
  {
    hide Inv, Reached;
    var n := |c.nodes[p].bases[d].writes|;
    ReachedNext(c, Write(p, d, batch));
    var c1 := Next(c, Write(p, d, batch));
    assert c1.nodes == c.nodes[p := Wrote(c.nodes[p], d, batch)];
    ReachedNext(c1, Ship(i, d, n + 1));
    t := Next(c1, Ship(i, d, n + 1));
    assert c1.nodes[p].bases[d].writes[..n + 1] == c.nodes[p].bases[d].writes + [batch];
  }

  lemma Takes(c: Cluster, i: nat, d: nat) returns (t: Cluster)
    requires Reached(c) && Inv(c) && Enabled(c, TakeCopy(i, d)) && c.nodes[i].bases[d].position.Some?
    ensures Reached(t) && Inv(t) && t.terms == c.terms && t.lines == c.lines
    ensures t.nodes == c.nodes[i := Wrote(c.nodes[i], d, c.nodes[i].role.link.sent[d][|c.nodes[i].bases[d].writes|])]
  {
    hide Inv, Reached;
    ReachedNext(c, TakeCopy(i, d));
    t := Next(c, TakeCopy(i, d));
    var b, batch := c.nodes[i].bases[d], c.nodes[i].role.link.sent[d][|c.nodes[i].bases[d].writes|];
    assert Taken(b, batch) == b.(writes := b.writes + [batch]);
  }

  /** A write of the primary's handed to one standby, and taken. */
  lemma HandsOn(c: Cluster, p: nat, i: nat, d: nat, batch: Changes) returns (t: Cluster)
    requires Reached(c) && Inv(c) && InHand(c, p, i, d)
    ensures Reached(t) && Inv(t) && t.terms == c.terms && |t.nodes| == |c.nodes|
    ensures c.nodes[p].history in c.lines ==> t.lines.Keys == c.lines.Keys
    ensures t.nodes[p] == Wrote(c.nodes[p], d, batch)
    ensures t.nodes[i] == Wrote(Handed(c.nodes[i], d, c.nodes[p].bases[d].writes + [batch]), d, batch)
    ensures forall k | 0 <= k < |c.nodes| && k != p && k != i :: t.nodes[k] == c.nodes[k]
  {
    var c1 := HandsOver(c, p, i, d, batch);
    var handed := Handed(c.nodes[i], d, c.nodes[p].bases[d].writes + [batch]);
    assert c1.nodes[i] == handed;
    var sent := handed.role.link.sent[d];
    assert sent == c.nodes[p].bases[d].writes + [batch] && sent[|handed.bases[d].writes|] == batch;
    assert Enabled(c1, TakeCopy(i, d));
    hide Inv, Reached, Enabled, Wrote, Handed;
    t := Takes(c1, i, d);
    assert t.nodes[i] == Wrote(handed, d, batch);
  }

  /** A node gone and back with what it synced: nothing; one of no history where it was primary. */
  lemma Gone(c: Cluster, i: nat) returns (t: Cluster)
    requires Reached(c) && Inv(c) && i < |c.nodes| && c.nodes[i].role.Primary? && !c.nodes[i].copying
    requires |c.nodes[i].bases| == DATABASES && forall d | 0 <= d < DATABASES ::
               var b := c.nodes[i].bases[d]; b.from == b.synced == 0 && b.copied == map[] && b.position.None?
    ensures Reached(t) && Inv(t) && t.terms == c.terms && t.lines == c.lines
    ensures t.nodes == c.nodes[i := Node.Node(Finding, c.nodes[i].kept, c.nodes[i].kept, 0, false,
                                              [Began(map[]), Began(map[]), Began(map[])])]
  {
    hide Inv, Reached;
    var n, back := c.nodes[i], [0, 0, 0];
    forall d | 0 <= d < DATABASES ensures ContentAt(n.bases[d], 0) == map[] {
      assert n.bases[d].writes[0..0] == [];
    }
    assert !Positioned(n.bases, back) by {
      assert n.bases[0].position.None?;
    }
    var gone := Restarted(n, back);
    assert gone.bases == [Began(map[]), Began(map[]), Began(map[])];
    ReachedNext(c, Restart(i, back));
    t := Next(c, Restart(i, back));
    assert NodeAfter(c, Restart(i, back)) == gone;
  }

  lemma Loses(c: Cluster, i: nat) returns (t: Cluster)
    requires Reached(c) && Inv(c) && i < |c.nodes| && c.nodes[i].role.Standby?
    ensures Reached(t) && Inv(t) && t == c.(nodes := c.nodes[i := c.nodes[i].(role := Finding)])
  {
    hide Inv, Reached;
    ReachedNext(c, Lose(i));
    t := Next(c, Lose(i));
  }

  function One(): Changes {
    map[0 := Some(1)]
  }

  function Other(): Changes {
    map[0 := Some(2)]
  }

  lemma SumOf(next: seq<nat>)
    requires |next| == DATABASES
    ensures Sum(next) == next[0] + next[1] + next[2]
  {
    assert next[1..][1..][1..] == [];
    assert Sum(next[1..][1..]) == next[2];
    assert Sum(next[1..]) == next[1] + next[2];
  }

  lemma BestOfTwo(c: Cluster, i: nat, j: nat, sumI: nat, sumJ: nat)
    requires i < |c.nodes| && j < |c.nodes| && i != j && !c.nodes[i].copying
    requires |c.nodes[i].bases| == DATABASES == |c.nodes[j].bases|
    requires var b := c.nodes[i].bases; sumI == |b[0].writes| + |b[1].writes| + |b[2].writes|
    requires var b := c.nodes[j].bases; sumJ == |b[0].writes| + |b[1].writes| + |b[2].writes|
    requires c.nodes[i].epoch > c.nodes[j].epoch || (c.nodes[i].epoch == c.nodes[j].epoch && sumI > sumJ)
    ensures AreNodes(c, [i, j]) && IsBest(Answers(c, [i, j]), Answer(c, i))
  {
    SumOf(SaysOf(c.nodes[i]).next);
    SumOf(SaysOf(c.nodes[j]).next);
    assert Answers(c, [i, j])[0] == Answer(c, i) && Answers(c, [i, j])[1] == Answer(c, j);
    assert Better(Answer(c, i), Answer(c, j));
  }

  /** A run to two standbys of one history of which the best is promoted and lacks a write of
      the other: it took more of one database's, the other more of another's. */
  lemma BestLacksOthersWrites() returns (c: Cluster)
    ensures Reached(c) && Inv(c) && |c.nodes| == 3 && c.nodes[1].history == c.nodes[2].history != 0
    ensures Enabled(c, Promote(1, [1, 2], 0)) && !HoldsWrites(c.nodes[1], c.nodes[2])
  {
    var c0 := Together();
    hide Inv, Reached;
    var c1 := HandsOn(c0, 0, 1, 0, One());
    var c2 := HandsOn(c1, 0, 1, 0, One());
    var c3 := HandsOn(c2, 0, 2, 1, One());
    var c4 := Gone(c3, 0);
    var c5 := Loses(c4, 1);
    c := Loses(c5, 2);
    BestOfTwo(c, 1, 2, 2, 1);
  }

  /** A run to a standby that took up the epoch of a new primary and lost it before it had its
      writes: it is promoted over one that has them, for the writes of its old history. */
  lemma PromotedOfAnotherHistory() returns (c: Cluster)
    ensures Reached(c) && Inv(c) && |c.nodes| == 3 
    ensures c.nodes[1].history != 0 && c.nodes[2].history != 0 && c.nodes[1].history != c.nodes[2].history
    ensures c.nodes[1].epoch == c.nodes[2].epoch && |c.nodes[2].bases| == DATABASES && c.nodes[2].bases[0].writes == [Other()]
    ensures Enabled(c, Promote(1, [1, 2], 0))
  {
    var c0 := Together();
    hide Inv, Reached;
    var c1 := HandsOn(c0, 0, 1, 0, One());
    var c2 := HandsOn(c1, 0, 1, 0, One());
    var c3 := Gone(c2, 0);
    var c4 := Loses(c3, 1);
    var c5 := Loses(c4, 2);
    var c6 := Begins(c5, 0, 8);
    assert Blank(c6.nodes[0]);
    var c7 := JoinsBlank(c6, 2, 0);
    var c8 := HandsOn(c7, 0, 2, 0, Other());
    ReachedNext(c8, Finds(1, 0));
    var c9 := Next(c8, Finds(1, 0));
    var c10 := Loses(c9, 1);
    var c11 := Gone(c10, 0);
    c := Loses(c11, 2);
    BestOfTwo(c, 1, 2, 2, 1);
  }

  /** A run to a standby whose epoch, wiped by its whole copy, is forgotten as it starts again:
      one that has less is promoted over it. */
  lemma EpochForgotten() returns (c: Cluster)
    ensures Reached(c) && Inv(c) && |c.nodes| == 3 && c.nodes[1].history == c.nodes[2].history != 0
    ensures c.nodes[1].epoch < c.nodes[2].epoch && |c.nodes[1].bases| == DATABASES
    ensures Enabled(c, Promote(2, [2, 1], 0)) && HoldsWrites(c.nodes[1], c.nodes[2]) && !HoldsWrites(c.nodes[2], c.nodes[1])
  {
    var c0 := Together();
    hide Inv, Reached;
    var c1 := HandsOn(c0, 0, 1, 0, One());
    ReachedNext(c1, Sync(1));
    var c2 := Next(c1, Sync(1));
    ReachedNext(c2, Restart(1, [1, 0, 0]));
    var c3 := Next(c2, Restart(1, [1, 0, 0]));
    assert c3.nodes[1].history == 7;
    var c4 := Gone(c3, 0);
    c := Loses(c4, 2);
    BestOfTwo(c, 2, 1, 0, 1);
  }

  lemma Differently()
    ensures Content(Copied().(writes := [One()])) != Content(Copied().(position := None, writes := [Other()]))
  {
    assert [One()][..0] == [] && [Other()][..0] == [];
    assert Applied(map[], [One()]) == map[0 := 1] && Applied(map[], [Other()]) == map[0 := 2];
    assert [One()][0..1] == [One()] && [Other()][0..1] == [Other()];
    assert map[0 := 1][0] != map[0 := 2][0];
  }

  /** A run to a standby that follows its primary, has taken as many writes as it wrote of each
      database, and holds another database: it was past the one promoted, whose history goes on
      under its old name, and so it follows on and is not copied whole. */
  lemma FollowsAcrossAFork() returns (c: Cluster)
    ensures Reached(c) && Inv(c) && |c.nodes| == 3 && Linked(c, 1) && PrimaryOf(c, 1) == c.nodes[2]
    ensures c.nodes[1].role.link.Following? && SaysOf(c.nodes[1]).next == SaysOf(c.nodes[2]).next
    ensures IsAt(c, 1, 0) && IsAt(c, 2, 0) && Settled(c.nodes[1].bases[0]) && Settled(c.nodes[2].bases[0])
    ensures Content(c.nodes[1].bases[0]) != Content(c.nodes[2].bases[0])
  {
    var c0 := Together();
    hide Inv, Reached, Enabled, Next;
    var c1 := HandsOn(c0, 0, 1, 0, One());
    var c2 := Gone(c1, 0);
    var c3 := Loses(c2, 1);
    var c4 := Loses(c3, 2);
    var c5 := Begins(c4, 2, 0);
    assert c5.nodes[2].bases == [Copied().(position := None), Copied().(position := None), Copied().(position := None)];
    c := FollowsOn(c5);
  }

  lemma FollowsOn(c: Cluster) returns (t: Cluster)
    requires Reached(c) && Inv(c) && |c.nodes| == 3
    requires var b := Copied().(position := None); c.nodes[2] == Node.Node(Role.Primary(2), 2, 2, 7, false, [b, b, b])
    requires c.nodes[1].role.Finding? && c.nodes[1].epoch <= 2 && c.nodes[1].history == 7
    requires c.nodes[1].bases == [Copied().(writes := [] + [One()]), Copied(), Copied()]
    ensures Reached(t) && Inv(t) && |t.nodes| == 3 && Linked(t, 1) && PrimaryOf(t, 1) == t.nodes[2]
    ensures t.nodes[1].role.link.Following? && SaysOf(t.nodes[1]).next == SaysOf(t.nodes[2]).next
    ensures IsAt(t, 1, 0) && IsAt(t, 2, 0) && Settled(t.nodes[1].bases[0]) && Settled(t.nodes[2].bases[0])
    ensures Content(t.nodes[1].bases[0]) != Content(t.nodes[2].bases[0])
  {
    hide Inv, Reached, Applied;
    ReachedNext(c, Write(2, 0, Other()));
    var c1 := Next(c, Write(2, 0, Other()));
    ReachedNext(c1, Finds(1, 2));
    var c2 := Next(c1, Finds(1, 2));
    ReachedNext(c2, FollowOn(1));
    t := Next(c2, FollowOn(1));
    assert t.nodes[1].bases[0] == Copied().(writes := [One()]);
    assert t.nodes[2].bases[0] == Copied().(position := None, writes := [Other()]);
    Differently();
  }

  /** One write, of two keys. */
  function Torn(): Changes {
    map[0 := Some(1), 5 := Some(1)]
  }

  lemma TornStates()
    ensures Applied(map[], []) == map[] && Applied(map[], [Torn()]) == map[0 := 1, 5 := 1]
  {
    assert [Torn()][..0] == [];
  }

  /** The primary, once it wrote while it was scanned. */
  function TornPrimary(): Node {
    Node.Node(Role.Primary(1), 1, 1, 7, false, [Began(map[]).(writes := [Torn()]), Began(map[]), Began(map[])])
  }

  /** What was copied of it: a page from before the write, and one from after. */
  function TornCopy(): Base {
    Copied().(copied := map[5 := 1], scan := [Torn()])
  }

  function Halfway(whole: Whole): Node {
    Node.Node(Standby(0, Copying(1, whole)), 1, 0, 0, true, [Began(map[]), Began(map[]), Began(map[])])
  }

  lemma ScansBlank() returns (c: Cluster)
    ensures Reached(c) && Inv(c) && c.terms == 1 && |c.nodes| == 3
    ensures c.nodes[0] == TornPrimary().(bases := [Began(map[]), Began(map[]), Began(map[])])
    ensures c.nodes[1] == Halfway(Whole(7, [], Copied(), 3))
  {
    StartedReached();
    hide Inv, Reached;
    var c1 := Begins(Started(), 0, 7);
    assert c1.nodes[0].bases == [Began(map[]), Began(map[]), Began(map[])];
    ReachedNext(c1, Finds(1, 0));
    var c2 := Next(c1, Finds(1, 0));
    ReachedNext(c2, StartWhole(1));
    var c3 := Next(c2, StartWhole(1));
    assert c3.nodes[1] == Halfway(Whole(7, [], Copied(), 0));
    ReachedNext(c3, TakePage(1, 3));
    c := Next(c3, TakePage(1, 3));
    assert Copied().copied + Page(map[], 0, 3) == map[];
    assert c.nodes[1].role.link.whole.now == Copied();
  }

  lemma ScansTorn() returns (c: Cluster)
    ensures Reached(c) && Inv(c) && c.terms == 1 && |c.nodes| == 3
    ensures c.nodes[0] == TornPrimary() && c.nodes[1] == Halfway(Whole(7, [], TornCopy(), 9))
  {
    var c0 := ScansBlank();
    hide Inv, Reached;
    ReachedNext(c0, Write(0, 0, Torn()));
    var c1 := Next(c0, Write(0, 0, Torn()));
    assert c1.nodes[0].bases[0].writes == [] + [Torn()] == [Torn()];
    assert c1.nodes[0].bases == TornPrimary().bases;
    var b := TornPrimary().bases[0];
    TornStates();
    assert b.writes[0..1] == [Torn()] == b.writes[0..];
    assert Content(b) == map[0 := 1, 5 := 1];
    ReachedNext(c1, TakePage(1, 9));
    c := Next(c1, TakePage(1, 9));
    var scanned := c.nodes[1].role.link.whole.now;
    var page := Page(Content(b), 3, 9);
    assert page == map[5 := 1];
    assert Copied().copied + page == map[5 := 1];
    assert scanned.copied == Copied().copied + page;
    assert scanned.scan == b.writes[0..] == [Torn()];
  }

  lemma BlankCopied()
    ensures CopyOf(Began(map[])) == Copied()
  {
  }

  lemma TornDiffers(m: nat)
    requires m <= 1
    ensures var b := TornPrimary().bases[0];
            b.writes == [Torn()] && Content(b) == map[0 := 1, 5 := 1] && Content(TornCopy()) != Applied(map[], b.writes[..m])
  {
    TornStates();
    var b := TornPrimary().bases[0];
    assert b.writes[0..1] == [Torn()] == b.writes[0..];
    assert Content(TornCopy()) == map[5 := 1];
    assert b.writes[..0] == [] && b.writes[..1] == [Torn()];
    assert 5 in Content(TornCopy()) && 0 !in Content(TornCopy());
  }

  /** A run to one that follows, no copy under way, and holds half of one write: a database its
      primary never was. The copy's end says where its writes follow from, not where they make
      it whole. */
  lemma FollowingTorn() returns (c: Cluster)
    ensures Reached(c) && Inv(c) && |c.nodes| == 3 && IsAt(c, 0, 0) && IsAt(c, 1, 0)
    ensures Linked(c, 1) && PrimaryOf(c, 1) == c.nodes[0] && c.nodes[1].role.link.Following? && !c.nodes[1].copying
    ensures c.nodes[0].bases[0].copied == map[] && c.nodes[0].bases[0].from == 0
    ensures forall m | 0 <= m <= |c.nodes[0].bases[0].writes| ::
              Content(c.nodes[1].bases[0]) != Applied(map[], c.nodes[0].bases[0].writes[..m])
  {
    c := CopiedTorn();
    forall m | 0 <= m <= 1 ensures Content(TornCopy()) != Applied(map[], TornPrimary().bases[0].writes[..m]) {
      TornDiffers(m);
    }
  }

  lemma CopiedTorn() returns (c: Cluster)
    ensures Reached(c) && Inv(c) && |c.nodes| == 3 && c.nodes[0] == TornPrimary() && c.nodes[1].role.Standby?
    ensures c.nodes[1].role.primary == 0 && c.nodes[1].role.link.Following? && c.nodes[1].role.link.term == 1
    ensures c.nodes[1].bases == [TornCopy(), Copied(), Copied()] && !c.nodes[1].copying && c.nodes[1].history == 7
  {
    var c0 := ScansTorn();
    TornDiffers(0);
    hide Inv, Reached, Applied;
    var b := TornPrimary().bases[0];
    ReachedNext(c0, EndBase(1));
    var c1 := Next(c0, EndBase(1));
    assert TornCopy().(scan := b.writes[0..]) == TornCopy();
    BlankCopied();
    assert c1.nodes[1].role.link.whole == Whole(7, [TornCopy()], Copied(), 0);
    c := EndsCopied(c1);
  }

  lemma EndsCopied(c: Cluster) returns (t: Cluster)
    requires Reached(c) && Inv(c) && |c.nodes| == 3 && c.nodes[0] == TornPrimary()
    requires c.nodes[1] == Halfway(Whole(7, [TornCopy()], Copied(), 0))
    ensures Reached(t) && Inv(t) && |t.nodes| == 3 && t.nodes[0] == TornPrimary() && t.nodes[1].role.Standby?
    ensures t.nodes[1].role.primary == 0 && t.nodes[1].role.link.Following? && t.nodes[1].role.link.term == 1
    ensures t.nodes[1].bases == [TornCopy(), Copied(), Copied()] && !t.nodes[1].copying
    ensures t.nodes[1].history == 7
  {
    hide Inv, Reached;
    BlankCopied();
    ReachedNext(c, EndBase(1));
    var c2 := Next(c, EndBase(1));
    assert c2.nodes[1].role.link.whole.done == [TornCopy(), Copied()];
    assert c2.nodes[1] == Halfway(Whole(7, [TornCopy(), Copied()], Copied(), 0));
    ReachedNext(c2, EndBase(1));
    t := Next(c2, EndBase(1));
    assert t.nodes[1].bases == [TornCopy(), Copied(), Copied()];
  }

  /** A run on from there to that one promoted: its history goes on under its name from half of
      one write, a database no primary of it ever was. */
  lemma TornPromoted() returns (c: Cluster)
    ensures Reached(c) && Inv(c) && |c.nodes| == 3 && IsAt(c, 1, 0)
    ensures c.nodes[1].role.Primary? && c.nodes[1].history == 7
    ensures var b := c.nodes[1].bases[0];
            && b.from == 0 && b.writes == [] && Content(b) == map[5 := 1]
            && forall m | 0 <= m <= 1 :: Content(b) != Applied(map[], [Torn()][..m])
  {
    var c0 := CopiedTorn();
    hide Inv, Reached;
    var c1 := Gone(c0, 0);
    var c2 := Loses(c1, 1);
    c := Begins(c2, 1, 0);
    assert c.nodes[1].bases[0] == TornCopy().(position := None);
    forall m | 0 <= m <= 1 ensures Content(TornCopy()) != Applied(map[], [Torn()][..m]) {
      TornDiffers(m);
    }
  }

  /** The one promoted is of a later epoch than every other that answered, and it keeps that. */
  lemma PromotionIsLater(c: Cluster, i: nat, answered: seq<nat>, named: nat, j: nat)
    requires Inv(c) && Enabled(c, Promote(i, answered, named)) && (j == i || j in answered)
    ensures j < |c.nodes|
    ensures var after := Next(c, Promote(i, answered, named)).nodes[i];
            c.nodes[j].epoch < after.epoch == after.kept && after.role.Primary?
  {
    if j in answered {
      LatestIsLatest(c, answered, j);
    }
  }

  lemma {:induction false} LatestIsLatest(c: Cluster, answered: seq<nat>, j: nat)
    requires AreNodes(c, answered) && j in answered
    ensures j < |c.nodes| && c.nodes[j].epoch <= Latest(c, answered)
    decreases |answered|
  {
    assert forall a | 0 <= a < |answered[1..]| :: answered[1..][a] == answered[a + 1];
    if answered[0] != j {
      LatestIsLatest(c, answered[1..], j);
    }
  }
}
