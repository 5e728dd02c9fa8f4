/** The writes of one history: which promotions keep every Storage node's numbers naming the same
    writes, and what the databases then hold (`standby.rs`, `standby/copies.rs`,
    `standby/finding.rs`). */
module Histories {
  import opened Wrappers
  import opened Copies
  import opened Bases
  import opened Standing
  import opened Clusters
  import opened Followed

  // ---- One history, one line of writes. ----

  /** A node's writes, and those handed to it, are its history's first; a primary's are all. */
  ghost predicate WritesIn(n: Node, line: seq<Line>) {
    && |line| == DATABASES == |n.bases|
    && forall d | 0 <= d < DATABASES ::
         && n.bases[d].writes <= line[d].writes
         && (n.role.Primary? ==> n.bases[d].writes == line[d].writes)
         && (n.role.Standby? && n.role.link.Following? ==>
               d < |n.role.link.sent| && n.role.link.sent[d] <= line[d].writes)
  }

  ghost predicate OneLine(c: Cluster) {
    && (forall i | 0 <= i < |c.nodes| && c.nodes[i].history != 0 ::
          c.nodes[i].history in c.lines && WritesIn(c.nodes[i], c.lines[c.nodes[i].history]))
    && forall i, j | 0 <= i < |c.nodes| && 0 <= j < |c.nodes| && i != j
         && c.nodes[i].role.Primary? && c.nodes[j].role.Primary? :: c.nodes[i].history != c.nodes[j].history
  }

  /** No other node of its history is a primary, or further on in any database, or has been
      handed more. */
  ghost predicate Ahead(c: Cluster, i: nat)
    requires i < |c.nodes|
  {
    forall j | 0 <= j < |c.nodes| && j != i && c.nodes[j].history == c.nodes[i].history :: NotPast(c.nodes[j], c.nodes[i])
  }

  ghost predicate NotPast(other: Node, n: Node) {
    && !other.role.Primary? && |other.bases| == |n.bases|
    && forall d | 0 <= d < |n.bases| ::
         && |other.bases[d].writes| <= |n.bases[d].writes|
         && (other.role.Standby? && other.role.link.Following? ==>
               d < |other.role.link.sent| && |other.role.link.sent[d]| <= |n.bases[d].writes|)
  }

  /** A promotion in a history goes on from a node no other is past. */
  ghost predicate OnFromAhead(c: Cluster, event: Event)
    requires Inv(c) && Enabled(c, event)
  {
    event.Promote? && c.nodes[event.i].history != 0 ==> Ahead(c, event.i)
  }

  lemma WriteOneLine(c: Cluster, i: nat, d: nat, batch: Changes)
    requires Inv(c) && OneLine(c) && Enabled(c, Write(i, d, batch))
    ensures OneLine(Next(c, Write(i, d, batch)))
  {
    var t := Next(c, Write(i, d, batch));
    var h := c.nodes[i].history;
    assert NodeOk(c.nodes[i]);
    forall j | 0 <= j < |t.nodes| && t.nodes[j].history != 0
      ensures t.nodes[j].history in t.lines && WritesIn(t.nodes[j], t.lines[t.nodes[j].history])
    {
      if j != i {
        assert NodeOk(c.nodes[j]) && WritesIn(c.nodes[j], c.lines[c.nodes[j].history]);
      }
    }
    hide WritesIn;
  }

  lemma PromoteOneLine(c: Cluster, i: nat, answered: seq<nat>, named: nat)
    requires Inv(c) && OneLine(c) && Enabled(c, Promote(i, answered, named))
    requires OnFromAhead(c, Promote(i, answered, named))
    ensures OneLine(Next(c, Promote(i, answered, named)))
  {
    var t := Next(c, Promote(i, answered, named));
    assert NodeOk(c.nodes[i]);
    forall j | 0 <= j < |t.nodes| && t.nodes[j].history != 0
      ensures t.nodes[j].history in t.lines && WritesIn(t.nodes[j], t.lines[t.nodes[j].history])
    {
      if j != i {
        assert NodeOk(c.nodes[j]) && WritesIn(c.nodes[j], c.lines[c.nodes[j].history]);
        if c.nodes[j].history == c.nodes[i].history {
          assert NotPast(c.nodes[j], c.nodes[i]);
          assert WritesIn(c.nodes[i], c.lines[c.nodes[i].history]);
        }
      }
    }
    forall j | 0 <= j < |t.nodes| && j != i && t.nodes[j].role.Primary? ensures t.nodes[j].history != t.nodes[i].history {
      assert NodeOk(c.nodes[j]);
      assert c.nodes[j].history == c.nodes[i].history ==> NotPast(c.nodes[j], c.nodes[i]);
    }
    hide WritesIn;
  }

  /** One node changed that becomes no primary, and no history's line. */
  lemma SetOneLine(c: Cluster, k: nat, n: Node)
    requires OneLine(c) && k < |c.nodes|
    requires n.history != 0 ==> n.history in c.lines && WritesIn(n, c.lines[n.history])
    requires n.role.Primary? ==> c.nodes[k].role.Primary? && n.history == c.nodes[k].history
    ensures OneLine(c.(nodes := c.nodes[k := n]))
  {
    hide WritesIn;
  }

  lemma EndOneLine(c: Cluster, i: nat)
    requires Inv(c) && OneLine(c) && Enabled(c, EndBase(i))
    ensures OneLine(Next(c, EndBase(i)))
  {
    hide Fuzzy, Scanned;
    var n, after, p := c.nodes[i], NodeAfter(c, EndBase(i)), PrimaryOf(c, i);
    assert NodeOk(n) && NodeOk(p) && LinkOk(n, p) && WritesIn(p, c.lines[p.history]);
    SetOneLine(c, i, after);
  }

  lemma OwnOneLine(c: Cluster, event: Event)
    requires Inv(c) && OneLine(c) && Enabled(c, event)
    requires event.Sync? || event.LetGo? || event.Finds? || event.Lose? || event.StepDown? || event.StartWhole? || event.TakePage?
    ensures OneLine(Next(c, event))
  {
    hide BaseOk, Fuzzy, Scanned, CopiedFrom;
    var n, after := c.nodes[event.i], NodeAfter(c, event);
    assert NodeOk(n);
    if event.StartWhole? {
      assert NodeOk(PrimaryOf(c, event.i));
    } else {
      assert after.history == n.history;
    }
    hide Inv, NodeOk, LinkOk;
    SetOneLine(c, event.i, after);
  }

  lemma RestartOneLine(c: Cluster, i: nat, back: seq<nat>)
    requires Inv(c) && OneLine(c) && Enabled(c, Restart(i, back))
    ensures OneLine(Next(c, Restart(i, back)))
  {
    var after := NodeAfter(c, Restart(i, back));
    assert NodeOk(c.nodes[i]);
    assert forall d | 0 <= d < DATABASES :: BaseOk(c.nodes[i].bases[d]);
    hide Inv, NodeOk, LinkOk, BaseOk, Fuzzy;
    SetOneLine(c, i, after);
  }

  lemma ShippedOneLine(c: Cluster, event: Event)
    requires Inv(c) && OneLine(c) && Enabled(c, event) && (event.FollowOn? || event.Ship? || event.TakeCopy?)
    ensures OneLine(Next(c, event))
  {
    hide BaseOk, Fuzzy, Scanned, CopiedFrom;
    var n, after, p := c.nodes[event.i], NodeAfter(c, event), PrimaryOf(c, event.i);
    assert NodeOk(n) && NodeOk(p) && LinkOk(n, p);
    assert n.history != 0 ==> WritesIn(n, c.lines[n.history]);
    assert p.history != 0 ==> WritesIn(p, c.lines[p.history]);
    hide Inv, NodeOk, LinkOk;
    SetOneLine(c, event.i, after);
  }

  lemma StepOneLine(c: Cluster, event: Event)
    requires Inv(c) && OneLine(c) && Enabled(c, event) && OnFromAhead(c, event)
    ensures OneLine(Next(c, event))
  {
    hide Inv, OneLine, Enabled, Next, OnFromAhead;
    match event {
      case Write(i, d, batch) => WriteOneLine(c, i, d, batch);
      case Promote(i, answered, named) => PromoteOneLine(c, i, answered, named);
      case EndBase(i) => EndOneLine(c, i);
      case Restart(i, back) => RestartOneLine(c, i, back);
      case FollowOn(_) => ShippedOneLine(c, event);
      case Ship(_, _, _) => ShippedOneLine(c, event);
      case TakeCopy(_, _) => ShippedOneLine(c, event);
      case _ => OwnOneLine(c, event);
    }
  }

  // ---- What the databases hold of it. ----

  /** A base's copy was of its history's line: begun at its `from`, scanned while it went on. */
  ghost predicate CopyIn(b: Base, line: Line) {
    && b.from <= |b.writes| && b.from <= |line.writes|
    && b.origin == Applied(line.start, line.writes[..b.from]) && b.scan <= line.writes[b.from..]
  }

  ghost predicate CopiesIn(n: Node, line: seq<Line>) {
    && |line| == DATABASES == |n.bases|
    && forall d | 0 <= d < DATABASES ::
         CopyIn(n.bases[d], line[d]) && (n.role.Primary? ==> n.bases[d].from + |n.bases[d].scan| <= |n.bases[d].writes|)
  }

  /** What a standby is being copied from has taken all its own copy had seen some of. */
  ghost predicate CopyingSettled(n: Node, p: Node) {
    n.role.Standby? && n.role.link.Copying? && p.role == Role.Primary(n.role.link.term) ==>
      && |p.bases| == DATABASES && |n.role.link.whole.done| < DATABASES
      && (forall d | 0 <= d < |n.role.link.whole.done| ::
            p.bases[d].from + |p.bases[d].scan| <= n.role.link.whole.done[d].from)
      && var now := |n.role.link.whole.done|;
         p.bases[now].from + |p.bases[now].scan| <= n.role.link.whole.now.from
  }

  ghost predicate OneContent(c: Cluster) {
    && (forall i | 0 <= i < |c.nodes| && c.nodes[i].history != 0 ::
          c.nodes[i].history in c.lines && CopiesIn(c.nodes[i], c.lines[c.nodes[i].history]))
    && forall i | 0 <= i < |c.nodes| && c.nodes[i].role.Standby? && c.nodes[i].role.primary < |c.nodes| ::
         CopyingSettled(c.nodes[i], c.nodes[c.nodes[i].role.primary])
  }

  /** It has taken all its own copies had seen some of, and no other's has seen what it lacks. */
  ghost predicate AllSeen(c: Cluster, i: nat)
    requires i < |c.nodes|
  {
    && (forall d | 0 <= d < |c.nodes[i].bases| :: Reach(c.nodes[i].bases[d]) == |c.nodes[i].bases[d].writes|)
    && forall j | 0 <= j < |c.nodes| && j != i && c.nodes[j].history == c.nodes[i].history ::
         SeenBy(c.nodes[j], c.nodes[i])
  }

  ghost predicate SeenBy(other: Node, n: Node) {
    |other.bases| == |n.bases| && forall d | 0 <= d < |n.bases| :: Reach(other.bases[d]) <= |n.bases[d].writes|
  }

  ghost predicate OnFromWhole(c: Cluster, event: Event)
    requires Inv(c) && Enabled(c, event)
  {
    event.Promote? && c.nodes[event.i].history != 0 ==> AllSeen(c, event.i)
  }

  lemma SetOneContent(c: Cluster, k: nat, n: Node)
    requires OneContent(c) && k < |c.nodes|
    requires n.history != 0 ==> n.history in c.lines && CopiesIn(n, c.lines[n.history])
    requires n.role.Standby? && n.role.primary < |c.nodes| ==>
               n.role.primary != k && CopyingSettled(n, c.nodes[n.role.primary])
    requires n.role.Primary? ==>
               n.role == c.nodes[k].role && |n.bases| == |c.nodes[k].bases|
               && forall d | 0 <= d < |n.bases| ::
                    n.bases[d].from == c.nodes[k].bases[d].from && n.bases[d].scan == c.nodes[k].bases[d].scan
    ensures OneContent(c.(nodes := c.nodes[k := n]))
  {
    hide CopiesIn;
    var t := c.(nodes := c.nodes[k := n]);
    forall i | 0 <= i < |t.nodes| && t.nodes[i].role.Standby? && t.nodes[i].role.primary < |t.nodes|
      ensures CopyingSettled(t.nodes[i], t.nodes[t.nodes[i].role.primary])
    {
      if i != k {
        assert CopyingSettled(c.nodes[i], c.nodes[c.nodes[i].role.primary]);
      }
    }
  }

  lemma CopyLonger(b: Base, line: Line, longer: Line)
    requires CopyIn(b, line) && longer.start == line.start && line.writes <= longer.writes
    ensures CopyIn(b, longer)
  {
    assert longer.writes[..b.from] == line.writes[..b.from];
    assert line.writes[b.from..] <= longer.writes[b.from..];
  }

  lemma WriteOneContent(c: Cluster, i: nat, d: nat, batch: Changes)
    requires Inv(c) && OneLine(c) && OneContent(c) && Enabled(c, Write(i, d, batch))
    ensures OneContent(Next(c, Write(i, d, batch)))
  {
    hide Fuzzy, Scanned, CopiedFrom, CopyIn;
    var t := Next(c, Write(i, d, batch));
    var h := c.nodes[i].history;
    assert NodeOk(c.nodes[i]) && WritesIn(c.nodes[i], c.lines[h]);
    forall j | 0 <= j < |t.nodes| && t.nodes[j].history != 0
      ensures t.nodes[j].history in t.lines && CopiesIn(t.nodes[j], t.lines[t.nodes[j].history])
    {
      assert NodeOk(c.nodes[j]) && CopiesIn(c.nodes[j], c.lines[c.nodes[j].history]);
      if c.nodes[j].history == h {
        forall e | 0 <= e < DATABASES ensures CopyIn(t.nodes[j].bases[e], t.lines[h][e]) {
          CopyLonger(c.nodes[j].bases[e], c.lines[h][e], t.lines[h][e]);
          SameCopy(c.nodes[j].bases[e], t.nodes[j].bases[e], t.lines[h][e]);
        }
      }
    }
    forall j | 0 <= j < |t.nodes| && t.nodes[j].role.Standby? && t.nodes[j].role.primary < |t.nodes|
      ensures CopyingSettled(t.nodes[j], t.nodes[t.nodes[j].role.primary])
    {
      assert CopyingSettled(c.nodes[j], c.nodes[c.nodes[j].role.primary]);
    }
  }

  lemma SameCopy(b: Base, after: Base, line: Line)
    requires CopyIn(b, line) && after.from == b.from && after.origin == b.origin && after.scan == b.scan
    requires b.from <= |after.writes|
    ensures CopyIn(after, line)
  {
  }

  lemma OwnOneContent(c: Cluster, event: Event)
    requires Inv(c) && OneContent(c) && Enabled(c, event)
    requires event.Sync? || event.LetGo? || event.Finds? || event.Lose? || event.StepDown? || event.FollowOn?
          || event.Ship? || event.TakeCopy?
    ensures OneContent(Next(c, event))
  {
    hide BaseOk, Fuzzy, Scanned, CopiedFrom, CopyIn;
    var n, after := c.nodes[event.i], NodeAfter(c, event);
    assert NodeOk(n) && after.history == n.history;
    if n.history != 0 {
      OwnCopies(c, event);
    }
    if n.role.Standby? {
      assert CopyingSettled(n, PrimaryOf(c, event.i));
    }
    hide Inv, NodeOk, LinkOk, CopiesIn;
    SetOneContent(c, event.i, after);
  }

  lemma OwnCopies(c: Cluster, event: Event)
    requires Inv(c) && OneContent(c) && Enabled(c, event) && c.nodes[event.i].history != 0
    requires event.Sync? || event.LetGo? || event.Finds? || event.Lose? || event.StepDown? || event.FollowOn?
          || event.Ship? || event.TakeCopy?
    ensures CopiesIn(NodeAfter(c, event), c.lines[c.nodes[event.i].history])
  {
    hide BaseOk, Fuzzy, Scanned, CopiedFrom, CopyIn, LinkOk;
    var n, after := c.nodes[event.i], NodeAfter(c, event);
    var line := c.lines[n.history];
    assert NodeOk(n) && CopiesIn(n, line);
    forall d | 0 <= d < DATABASES ensures CopyIn(after.bases[d], line[d]) {
      assert CopyIn(n.bases[d], line[d]);
      FromWithin(n.bases[d], line[d]);
      SameCopy(n.bases[d], after.bases[d], line[d]);
    }
  }

  lemma FromWithin(b: Base, line: Line)
    requires CopyIn(b, line)
    ensures b.from <= |b.writes|
  {
  }

  lemma RestartOneContent(c: Cluster, i: nat, back: seq<nat>)
    requires Inv(c) && OneContent(c) && Enabled(c, Restart(i, back))
    ensures OneContent(Next(c, Restart(i, back)))
  {
    hide Fuzzy;
    var n, after := c.nodes[i], NodeAfter(c, Restart(i, back));
    assert NodeOk(n);
    if after.history != 0 {
      assert CopiesIn(n, c.lines[n.history]);
      forall d | 0 <= d < DATABASES ensures CopyIn(after.bases[d], c.lines[n.history][d]) {
        assert BaseOk(n.bases[d]) && CopyIn(n.bases[d], c.lines[n.history][d]);
      }
    }
    hide Inv, NodeOk, LinkOk, BaseOk, CopyIn;
    SetOneContent(c, i, after);
  }

  /** A copy begun on a settled primary of the line is of the line. */
  lemma CopyOfLine(b: Base, p: Base, line: Line)
    requires CopiedFrom(b, p) && Fuzzy(p) && p.writes == line.writes && CopyIn(p, line)
    requires p.from + |p.scan| <= b.from
    ensures CopyIn(b, line)
  {
    assert line.writes[p.from..] == p.writes[p.from..];
    SettledHolds(p, b.from);
    assert line.writes[..b.from] == line.writes[..p.from] + p.writes[p.from..b.from];
    AppliedParts(line.start, line.writes[..p.from], p.writes[p.from..b.from]);
  }

  lemma WholeOneContent(c: Cluster, event: Event)
    requires Inv(c) && OneLine(c) && OneContent(c) && Enabled(c, event)
    requires event.StartWhole? || event.TakePage?
    ensures OneContent(Next(c, event))
  {
    hide BaseOk, Fuzzy, Scanned, CopiedFrom;
    var n, after, p := c.nodes[event.i], NodeAfter(c, event), PrimaryOf(c, event.i);
    assert NodeOk(n) && NodeOk(p) && LinkOk(n, p) && CopiesIn(p, c.lines[p.history]) && CopyingSettled(n, p);
    hide Inv, NodeOk, LinkOk, CopyIn;
    SetOneContent(c, event.i, after);
  }

  lemma EndedCopies(n: Node, p: Node, line: seq<Line>)
    requires NodeOk(n) && NodeOk(p) && LinkOk(n, p) && WritesIn(p, line) && CopiesIn(p, line) && CopyingSettled(n, p)
    requires n.role.Standby? && n.role.link.Copying? && p.role == Role.Primary(n.role.link.term)
    requires forall d | 0 <= d < DATABASES :: p.bases[d].from <= |p.bases[d].writes|
    requires n.role.link.whole.now.from <= |p.bases[|n.role.link.whole.done|].writes|
    requires var w := n.role.link.whole; var pb := p.bases[|w.done|];
             var ended := w.now.(scan := pb.writes[w.now.from..]); CopiedFrom(ended, pb)
    ensures Ended(n, p).history != 0 ==> CopiesIn(Ended(n, p), line)
  {
    hide Scanned, Fuzzy;
    var w, after := n.role.link.whole, Ended(n, p);
    if after.history != 0 {
      forall d | 0 <= d < DATABASES ensures CopyIn(after.bases[d], line[d]) {
        assert BaseOk(p.bases[d]) && CopyIn(p.bases[d], line[d]);
        assert CopiedFrom(after.bases[d], p.bases[d]);
        CopyOfLine(after.bases[d], p.bases[d], line[d]);
      }
    }
  }

  lemma EndedSettled(n: Node, p: Node)
    requires NodeOk(p) && LinkOk(n, p) && CopyingSettled(n, p) && NodeOk(n)
    requires n.role.Standby? && n.role.link.Copying? && p.role == Role.Primary(n.role.link.term)
    requires forall d | 0 <= d < DATABASES :: p.bases[d].from + |p.bases[d].scan| <= |p.bases[d].writes|
    requires n.role.link.whole.now.from <= |p.bases[|n.role.link.whole.done|].writes|
    ensures CopyingSettled(Ended(n, p), p)
  {
    hide Scanned, Fuzzy, CopiedFrom, BaseOk;
  }

  lemma EndOneContent(c: Cluster, i: nat)
    requires Inv(c) && OneLine(c) && OneContent(c) && Enabled(c, EndBase(i))
    ensures OneContent(Next(c, EndBase(i)))
  {
    hide Scanned, Fuzzy;
    var n, after, p := c.nodes[i], NodeAfter(c, EndBase(i)), PrimaryOf(c, i);
    assert NodeOk(n) && NodeOk(p) && LinkOk(n, p) && CopiesIn(p, c.lines[p.history]) && CopyingSettled(n, p);
    assert WritesIn(p, c.lines[p.history]);
    hide WritesIn;
    assert after == Ended(n, p);
    EndedCopies(n, p, c.lines[p.history]);
    EndedSettled(n, p);
    hide Inv, NodeOk, LinkOk, CopiesIn, CopiedFrom, BaseOk, CopyIn;
    SetOneContent(c, i, after);
  }

  lemma NoScan(b: Base)
    requires Fuzzy(b) && b.scan == []
    ensures b.origin == b.copied
  {
    ScanMakesWhole(b);
  }

  lemma PromoteOneContent(c: Cluster, i: nat, answered: seq<nat>, named: nat)
    requires Inv(c) && OneLine(c) && OneContent(c) && Enabled(c, Promote(i, answered, named))
    requires OnFromAhead(c, Promote(i, answered, named)) && OnFromWhole(c, Promote(i, answered, named))
    ensures OneContent(Next(c, Promote(i, answered, named)))
  {
    hide Scanned, CopiedFrom;
    var n, t := c.nodes[i], Next(c, Promote(i, answered, named));
    var after := t.nodes[i];
    assert NodeOk(n);
    forall j | 0 <= j < |t.nodes| && t.nodes[j].history != 0
      ensures t.nodes[j].history in t.lines && CopiesIn(t.nodes[j], t.lines[t.nodes[j].history])
    {
      PromotedCopies(c, i, answered, named, j);
    }
    hide CopiesIn, Fuzzy, NodeOk;
    forall j | 0 <= j < |t.nodes| && t.nodes[j].role.Standby? && t.nodes[j].role.primary < |t.nodes|
      ensures CopyingSettled(t.nodes[j], t.nodes[t.nodes[j].role.primary])
    {
      assert CopyingSettled(c.nodes[j], c.nodes[c.nodes[j].role.primary]) && TermsOk(c.nodes[j], c.terms);
    }
  }

  lemma PromotedCopies(c: Cluster, i: nat, answered: seq<nat>, named: nat, j: nat)
    requires Inv(c) && OneLine(c) && OneContent(c) && Enabled(c, Promote(i, answered, named))
    requires OnFromAhead(c, Promote(i, answered, named)) && OnFromWhole(c, Promote(i, answered, named))
    requires j < |c.nodes| && Next(c, Promote(i, answered, named)).nodes[j].history != 0
    ensures var t := Next(c, Promote(i, answered, named));
            t.nodes[j].history in t.lines && CopiesIn(t.nodes[j], t.lines[t.nodes[j].history])
  {
    hide Scanned, CopiedFrom, LinkOk;
    var n, t := c.nodes[i], Next(c, Promote(i, answered, named));
    var h := t.nodes[i].history;
    assert NodeOk(n) && NodeOk(c.nodes[j]);
    if n.history == 0 {
      if j == i {
        forall d | 0 <= d < DATABASES ensures CopyIn(t.nodes[i].bases[d], t.lines[h][d]) {
          assert BaseOk(n.bases[d]);
          NoScan(n.bases[d]);
        }
      } else {
        assert CopiesIn(c.nodes[j], c.lines[c.nodes[j].history]);
      }
    } else {
      assert CopiesIn(c.nodes[j], c.lines[c.nodes[j].history]) && WritesIn(c.nodes[j], c.lines[c.nodes[j].history]);
      assert WritesIn(n, c.lines[n.history]);
      if c.nodes[j].history == h {
        assert j != i ==> SeenBy(c.nodes[j], n);
        forall d | 0 <= d < DATABASES ensures CopyIn(t.nodes[j].bases[d], t.lines[h][d]) {
          assert BaseOk(c.nodes[j].bases[d]) && CopyIn(c.nodes[j].bases[d], c.lines[h][d]);
          assert Reach(c.nodes[j].bases[d]) <= |n.bases[d].writes|;
          ShorterCopy(c.nodes[j].bases[d], c.lines[h][d], t.lines[h][d]);
        }
      }
    }
  }

  /** A promotion ahead of its history keeps every copy of it one of its line where, and only
      where, the one promoted has taken all any copy of the history had seen some of, its own
      among them. */
  lemma PromotionKeepsWhole(c: Cluster, i: nat, answered: seq<nat>, named: nat)
    requires Inv(c) && OneLine(c) && OneContent(c) && Enabled(c, Promote(i, answered, named))
    requires c.nodes[i].history != 0 && Ahead(c, i)
    ensures OneContent(Next(c, Promote(i, answered, named))) <==> AllSeen(c, i)
  {
    hide Inv, OneLine, OneContent, AllSeen, Ahead, IsBest, Next;
    if AllSeen(c, i) {
      PromoteOneContent(c, i, answered, named);
    }
    if OneContent(Next(c, Promote(i, answered, named))) {
      WholeHasSeen(c, i, answered, named);
    }
  }

  lemma WholeHasSeen(c: Cluster, i: nat, answered: seq<nat>, named: nat)
    requires Inv(c) && OneLine(c) && Enabled(c, Promote(i, answered, named)) && c.nodes[i].history != 0 && Ahead(c, i)
    requires OneContent(Next(c, Promote(i, answered, named)))
    ensures AllSeen(c, i)
  {
    hide Fuzzy, LinkOk, CopyingSettled, BaseOk, CopyIn;
    var n, t := c.nodes[i], Next(c, Promote(i, answered, named));
    assert NodeOk(n) && CopiesIn(t.nodes[i], t.lines[n.history]);
    forall d | 0 <= d < DATABASES ensures Reach(n.bases[d]) == |n.bases[d].writes| {
      assert t.nodes[i].bases[d].from == n.bases[d].from && t.nodes[i].bases[d].scan == n.bases[d].scan;
    }
    forall j | 0 <= j < |c.nodes| && j != i && c.nodes[j].history == n.history ensures SeenBy(c.nodes[j], n) {
      assert t.nodes[j] == c.nodes[j] && CopiesIn(t.nodes[j], t.lines[n.history]) && NotPast(c.nodes[j], n);
      assert NodeOk(c.nodes[j]);
      forall d | 0 <= d < DATABASES ensures Reach(c.nodes[j].bases[d]) <= |n.bases[d].writes| {
        SeenIn(c.nodes[j].bases[d], t.lines[n.history][d]);
      }
    }
  }

  lemma SeenIn(b: Base, line: Line)
    requires CopyIn(b, line)
    ensures b.from + |b.scan| <= |line.writes|
  {
  }

  lemma ShorterCopy(b: Base, line: Line, shorter: Line)
    requires CopyIn(b, line) && shorter.start == line.start && shorter.writes <= line.writes
    requires Reach(b) <= |shorter.writes|
    ensures CopyIn(b, shorter)
  {
    assert shorter.writes[..b.from] == line.writes[..b.from];
    assert shorter.writes[b.from..] == line.writes[b.from..|shorter.writes|];
  }

  lemma StepOneContent(c: Cluster, event: Event)
    requires Inv(c) && OneLine(c) && OneContent(c) && Enabled(c, event) && OnFromAhead(c, event) && OnFromWhole(c, event)
    ensures OneContent(Next(c, event))
  {
    hide Inv, OneLine, OneContent, Enabled, Next, OnFromAhead, OnFromWhole;
    match event {
      case Write(i, d, batch) => WriteOneContent(c, i, d, batch);
      case Promote(i, answered, named) => PromoteOneContent(c, i, answered, named);
      case EndBase(i) => EndOneContent(c, i);
      case Restart(i, back) => RestartOneContent(c, i, back);
      case StartWhole(_) => WholeOneContent(c, event);
      case TakePage(_, _) => WholeOneContent(c, event);
      case _ => OwnOneContent(c, event);
    }
  }

  // ---- Over every run. ----

  /** Each promotion of the run goes on from a node no other of its history is past. */
  ghost predicate AheadAlways(c: Cluster, events: seq<Event>)
    requires CanRun(c, events)
    decreases |events|
  {
    events == [] || (OnFromAhead(c, events[0]) && AheadAlways(Next(c, events[0]), events[1..]))
  }

  /** And whose databases are whole, of every write another's copy has seen some of. */
  ghost predicate WholeAlways(c: Cluster, events: seq<Event>)
    requires CanRun(c, events)
    decreases |events|
  {
    events == [] || (OnFromWhole(c, events[0]) && WholeAlways(Next(c, events[0]), events[1..]))
  }

  lemma {:induction false} RunOneLine(c: Cluster, events: seq<Event>)
    requires OneLine(c) && CanRun(c, events) && AheadAlways(c, events)
    ensures OneLine(Run(c, events))
    decreases |events|
  {
    hide Inv, OneLine, Enabled, Next, OnFromAhead;
    if events != [] {
      StepOneLine(c, events[0]);
      RunOneLine(Next(c, events[0]), events[1..]);
    }
  }

  lemma {:induction false} RunOneContent(c: Cluster, events: seq<Event>)
    requires OneLine(c) && OneContent(c) && CanRun(c, events) && AheadAlways(c, events) && WholeAlways(c, events)
    ensures OneContent(Run(c, events))
    decreases |events|
  {
    hide Inv, OneLine, OneContent, Enabled, Next, OnFromAhead, OnFromWhole;
    if events != [] {
      StepOneLine(c, events[0]);
      StepOneContent(c, events[0]);
      RunOneContent(Next(c, events[0]), events[1..]);
    }
  }

  lemma RunHolds(c: Cluster, events: seq<Event>)
    requires Fresh(c) && CanRun(c, events) && AheadAlways(c, events) && WholeAlways(c, events)
    ensures var t := Run(c, events); Inv(t) && OneLine(t) && OneContent(t)
  {
    RunKeeps(c, events);
    RunOneLine(c, events);
    RunOneContent(c, events);
  }

  /** In every run of writing, shipping, following, falling behind, being copied whole, cut
      short, gone, back and promoted, of every database: a settled node of a history holds the
      database the history began with and its first writes, exactly as many as it says. */
  lemma StandbyHoldsPrefix(c: Cluster, events: seq<Event>, i: nat, d: nat)
    requires Fresh(c) && CanRun(c, events) && AheadAlways(c, events) && WholeAlways(c, events)
    requires i < |Run(c, events).nodes| && d < DATABASES && Run(c, events).nodes[i].history != 0
    ensures var t := Run(c, events); var n := t.nodes[i];
            && n.history in t.lines && |t.lines[n.history]| == DATABASES == |n.bases|
            && var b, line := n.bases[d], t.lines[n.history][d];
            && b.writes <= line.writes && b.from <= |b.writes|
            && (b.from + |b.scan| <= |b.writes| ==> Content(b) == Applied(line.start, b.writes))
            && (n.role.Primary? ==> Content(b) == Applied(line.start, line.writes))
  {
    RunHolds(c, events);
    var t := Run(c, events);
    var n := t.nodes[i];
    var line := t.lines[n.history];
    assert NodeOk(n) && BaseOk(n.bases[d]);
    assert WritesIn(n, line) && CopiesIn(n, line);
    SettledIs(n.bases[d], line[d]);
  }

  lemma SettledIs(b: Base, line: Line)
    requires Fuzzy(b) && CopyIn(b, line) && b.writes <= line.writes
    ensures b.from + |b.scan| <= |b.writes| ==> Content(b) == Applied(line.start, b.writes)
  {
    if b.from + |b.scan| <= |b.writes| {
      assert b.writes[b.from..] <= line.writes[b.from..];
      SettledHolds(b, |b.writes|);
      assert b.writes[..b.from] == line.writes[..b.from];
      assert b.writes == b.writes[..b.from] + b.writes[b.from..|b.writes|];
      AppliedParts(line.start, b.writes[..b.from], b.writes[b.from..|b.writes|]);
    }
  }

  /** So of any two of one history, in each database, the one further on holds the other's
      writes and more, and where both are settled its database is the other's with those. */
  lemma FurtherHoldsMore(c: Cluster, events: seq<Event>, i: nat, j: nat, d: nat)
    requires Fresh(c) && CanRun(c, events) && AheadAlways(c, events) && WholeAlways(c, events)
    requires var t := Run(c, events);
             && i < |t.nodes| && j < |t.nodes| && d < DATABASES
             && |t.nodes[i].bases| == DATABASES == |t.nodes[j].bases|
             && t.nodes[i].history == t.nodes[j].history != 0
             && |t.nodes[i].bases[d].writes| <= |t.nodes[j].bases[d].writes|
    ensures var t := Run(c, events); var one, other := t.nodes[i].bases[d], t.nodes[j].bases[d];
            && one.writes <= other.writes
            && one.from <= |one.writes| && other.from <= |other.writes|
            && (one.from + |one.scan| <= |one.writes| && other.from + |other.scan| <= |other.writes| ==>
                  Content(other) == Applied(Content(one), other.writes[|one.writes|..]))
  {
    hide Run, CanRun, AheadAlways, WholeAlways, Fresh, Applied;
    StandbyHoldsPrefix(c, events, i, d);
    StandbyHoldsPrefix(c, events, j, d);
    var t := Run(c, events);
    var one, other := t.nodes[i].bases[d], t.nodes[j].bases[d];
    assert other.writes == one.writes + other.writes[|one.writes|..];
    AppliedParts(t.lines[t.nodes[i].history][d].start, one.writes, other.writes[|one.writes|..]);
  }

  // ---- Exactly which promotions can make a history's numbers name two writes. ----

  /** Two nodes of one history have different writes under one number of a database. */
  ghost predicate Forked(c: Cluster) {
    exists i: nat, j: nat, d: nat, n: nat :: Differ(c, i, j, d, n)
  }

  predicate Differ(c: Cluster, i: nat, j: nat, d: nat, n: nat) {
    && i < |c.nodes| && j < |c.nodes| && c.nodes[i].history == c.nodes[j].history != 0
    && d < |c.nodes[i].bases| && d < |c.nodes[j].bases|
    && n < |c.nodes[i].bases[d].writes| && n < |c.nodes[j].bases[d].writes|
    && c.nodes[i].bases[d].writes[n] != c.nodes[j].bases[d].writes[n]
  }

  lemma OneLineNoFork(c: Cluster)
    requires OneLine(c)
    ensures !Forked(c)
  {
    forall i: nat, j: nat, d: nat, n: nat ensures !Differ(c, i, j, d, n) {
      if i < |c.nodes| && j < |c.nodes| && c.nodes[i].history == c.nodes[j].history != 0 {
        assert WritesIn(c.nodes[i], c.lines[c.nodes[i].history]) && WritesIn(c.nodes[j], c.lines[c.nodes[j].history]);
      }
    }
  }

  predicate NoneBegins(events: seq<Event>) {
    forall k | 0 <= k < |events| :: !events[k].Promote?
  }

  lemma {:induction false} NoneBeginsAhead(c: Cluster, events: seq<Event>)
    requires CanRun(c, events) && NoneBegins(events)
    ensures AheadAlways(c, events)
    decreases |events|
  {
    if events != [] {
      assert !events[0].Promote?;
      assert forall k | 0 <= k < |events[1..]| :: events[1..][k] == events[k + 1];
      NoneBeginsAhead(Next(c, events[0]), events[1..]);
    }
  }

  /** No run on with no other promotion comes to two writes under one number. */
  ghost predicate NeverForks(c: Cluster) {
    forall events | CanRun(c, events) && NoneBegins(events) :: !Forked(Run(c, events))
  }

  lemma NoneRun(c: Cluster)
    requires Inv(c)
    ensures CanRun(c, []) && Run(c, []) == c
  {
  }

  /** Another's number written again: a write of its own at a number `other` is to have. */
  function Unlike(batch: Changes): (other: Changes)
    ensures other != batch
  {
    var one: Changes := map[0 := None];
    assert 0 in one;
    if batch == map[] then one else map[]
  }

  /** A primary writes another write under a number another node has. */
  lemma WritesAgain(c: Cluster, i: nat, j: nat, d: nat)
    requires Inv(c) && i < |c.nodes| && j < |c.nodes| && i != j && d < DATABASES
    requires c.nodes[i].role.Primary? && c.nodes[j].history == c.nodes[i].history
    requires IsAt(c, i, d) && IsAt(c, j, d) && |c.nodes[i].bases[d].writes| < |c.nodes[j].bases[d].writes|
    ensures !NeverForks(c)
  {
    hide Inv, Run, CanRun;
    var n := |c.nodes[i].bases[d].writes|;
    var event := Write(i, d, Unlike(c.nodes[j].bases[d].writes[n]));
    WritesOne(c, i, d, Unlike(c.nodes[j].bases[d].writes[n]));
    var t := Next(c, event);
    assert Differ(t, i, j, d, n);
    NoneRun(t);
    RunFirst(c, event, []);
    assert NoneBegins([event] + []) && Forked(Run(c, [event] + []));
  }

  lemma TakesOne(c: Cluster, j: nat, d: nat)
    requires Inv(c) && Enabled(c, TakeCopy(j, d))
    ensures var t := Next(c, TakeCopy(j, d));
            && Inv(t) && |t.nodes| == |c.nodes| && IsAt(t, j, d)
            && t.nodes[j].history == c.nodes[j].history && t.nodes[j].role == c.nodes[j].role
            && t.nodes[j].bases[d].writes
               == c.nodes[j].bases[d].writes + [c.nodes[j].role.link.sent[d][|c.nodes[j].bases[d].writes|]]
            && forall k | 0 <= k < |c.nodes| && k != j :: t.nodes[k] == c.nodes[k]
  {
    StepKeeps(c, TakeCopy(j, d));
  }

  /** A standby takes the next `count` of what it was handed. */
  lemma {:induction false} TakesUpTo(c: Cluster, j: nat, d: nat, count: nat) returns (events: seq<Event>, t: Cluster)
    requires Inv(c) && IsAt(c, j, d) && c.nodes[j].role.Standby? && c.nodes[j].role.link.Following?
    requires d < |c.nodes[j].role.link.sent|
    requires |c.nodes[j].bases[d].writes| + count <= |c.nodes[j].role.link.sent[d]|
    ensures CanRun(c, events) && NoneBegins(events) && t == Run(c, events) && Inv(t)
    ensures |t.nodes| == |c.nodes| && IsAt(t, j, d) && t.nodes[j].history == c.nodes[j].history
    ensures forall k | 0 <= k < |c.nodes| && k != j :: t.nodes[k] == c.nodes[k]
    ensures var had := |c.nodes[j].bases[d].writes|;
            t.nodes[j].bases[d].writes == c.nodes[j].bases[d].writes + c.nodes[j].role.link.sent[d][had..had + count]
    decreases count
  {
    hide Inv, Run, CanRun;
    var sent := c.nodes[j].role.link.sent[d];
    var had := |c.nodes[j].bases[d].writes|;
    if count == 0 {
      events, t := [], c;
      NoneRun(c);
    } else {
      var event := TakeCopy(j, d);
      TakesOne(c, j, d);
      var next := Next(c, event);
      hide Enabled, Next;
      var rest;
      rest, t := TakesUpTo(next, j, d, count - 1);
      events := [event] + rest;
      RunFirst(c, event, rest);
      assert sent[had..had + count] == [sent[had]] + sent[had + 1..had + count];
    }
  }

  lemma WritesOne(c: Cluster, i: nat, d: nat, batch: Changes)
    requires Inv(c) && Enabled(c, Write(i, d, batch))
    ensures var t := Next(c, Write(i, d, batch));
            && Inv(t) && |t.nodes| == |c.nodes| && IsAt(t, i, d)
            && t.nodes[i].history == c.nodes[i].history != 0 && t.nodes[i].role == c.nodes[i].role
            && t.nodes[i].bases[d].writes == c.nodes[i].bases[d].writes + [batch]
            && forall k | 0 <= k < |c.nodes| && k != i :: t.nodes[k] == c.nodes[k]
  {
    assert NodeOk(c.nodes[i]);
    StepKeeps(c, Write(i, d, batch));
  }

  /** And one that a standby was handed more than: what it was handed is taken after. */
  lemma TakesOther(c: Cluster, i: nat, j: nat, d: nat)
    requires Inv(c) && i < |c.nodes| && j < |c.nodes| && i != j && d < DATABASES
    requires c.nodes[i].role.Primary? && c.nodes[j].history == c.nodes[i].history
    requires IsAt(c, i, d) && IsAt(c, j, d) && c.nodes[j].role.Standby? && c.nodes[j].role.link.Following?
    requires d < |c.nodes[j].role.link.sent| && |c.nodes[j].bases[d].writes| <= |c.nodes[i].bases[d].writes| < |c.nodes[j].role.link.sent[d]|
    ensures !NeverForks(c)
  {
    hide Inv, Run, CanRun;
    var n, had := |c.nodes[i].bases[d].writes|, |c.nodes[j].bases[d].writes|;
    var sent := c.nodes[j].role.link.sent[d];
    var event := Write(i, d, Unlike(sent[n]));
    WritesOne(c, i, d, Unlike(sent[n]));
    var next := Next(c, event);
    assert Enabled(c, event);
    hide Enabled, Next;
    var rest, t := TakesUpTo(next, j, d, n + 1 - had);
    assert t.nodes[j].bases[d].writes[n] == sent[had..had + (n + 1 - had)][n - had] == sent[n];
    assert Differ(t, i, j, d, n);
    RunFirst(c, event, rest);
    assert NoneBegins([event] + rest) && Forked(Run(c, [event] + rest));
  }

  /** Two primaries of one history at one number write two writes under it. */
  lemma BothWrite(c: Cluster, i: nat, j: nat)
    requires Inv(c) && i < |c.nodes| && j < |c.nodes| && i != j
    requires c.nodes[i].role.Primary? && c.nodes[j].role.Primary? && c.nodes[j].history == c.nodes[i].history
    requires IsAt(c, i, 0) && IsAt(c, j, 0) && |c.nodes[i].bases[0].writes| == |c.nodes[j].bases[0].writes|
    ensures !NeverForks(c)
  {
    hide Inv, Run, CanRun;
    var one, other := Write(i, 0, map[]), Write(j, 0, Unlike(map[]));
    WritesOne(c, i, 0, map[]);
    var next := Next(c, one);
    WritesOne(next, j, 0, Unlike(map[]));
    var t := Next(next, other);
    assert Differ(t, i, j, 0, |c.nodes[i].bases[0].writes|);
    NoneRun(t);
    RunFirst(next, other, []);
    RunFirst(c, one, [other] + []);
    assert NoneBegins([one] + ([other] + [])) && Forked(Run(c, [one] + ([other] + [])));
  }

  lemma PastForks(c: Cluster, i: nat, j: nat)
    requires Inv(c) && i < |c.nodes| && j < |c.nodes| && i != j
    requires c.nodes[i].role.Primary? && c.nodes[j].history == c.nodes[i].history && !NotPast(c.nodes[j], c.nodes[i])
    ensures !NeverForks(c)
  {
    hide NeverForks, LinkOk, BaseOk;
    var n, other := c.nodes[i], c.nodes[j];
    assert NodeOk(n) && NodeOk(other);
    if d :| 0 <= d < DATABASES && |n.bases[d].writes| < |other.bases[d].writes| {
      WritesAgain(c, i, j, d);
    } else if other.role.Primary? {
      if |other.bases[0].writes| < |n.bases[0].writes| {
        WritesAgain(c, j, i, 0);
      } else {
        BothWrite(c, i, j);
      }
    } else {
      var d :| 0 <= d < DATABASES && |n.bases[d].writes| < |other.role.link.sent[d]|;
      TakesOther(c, i, j, d);
    }
  }

  /** A promotion never leads to two writes under one number of its history where, and only
      where, no other node of the history is a primary, is past the one promoted in a database,
      or was handed what is. */
  lemma PromotionForks(c: Cluster, i: nat, answered: seq<nat>, named: nat)
    requires Inv(c) && OneLine(c) && Enabled(c, Promote(i, answered, named)) && c.nodes[i].history != 0
    ensures NeverForks(Next(c, Promote(i, answered, named))) <==> Ahead(c, i)
  {
    hide Inv, OneLine, NotPast, NeverForks, Run;
    var event := Promote(i, answered, named);
    var t := Next(c, event);
    assert |t.nodes| == |c.nodes|;
    hide Enabled;
    StepKeeps(c, event);
    if Ahead(c, i) {
      StepOneLine(c, event);
      NeverForksSo(t);
    } else {
      var j :| 0 <= j < |c.nodes| && j != i && c.nodes[j].history == c.nodes[i].history && !NotPast(c.nodes[j], c.nodes[i]);
      PastStays(c, event, j);
      PastForks(t, i, j);
    }
  }

  lemma PastStays(c: Cluster, event: Event, j: nat)
    requires Inv(c) && Enabled(c, event) && event.Promote? && j < |c.nodes| && j != event.i
    requires c.nodes[event.i].history != 0 && !NotPast(c.nodes[j], c.nodes[event.i])
    ensures var t := Next(c, event);
            && t.nodes[event.i].role.Primary? && t.nodes[event.i].history == c.nodes[event.i].history
            && !NotPast(t.nodes[j], t.nodes[event.i])
  {
    assert NodeOk(c.nodes[event.i]);
    assert forall d | 0 <= d < DATABASES :: Next(c, event).nodes[event.i].bases[d].writes == c.nodes[event.i].bases[d].writes;
  }

  lemma NeverForksSo(c: Cluster)
    requires Inv(c) && OneLine(c)
    ensures NeverForks(c)
  {
    hide Inv, OneLine, Forked;
    forall events | CanRun(c, events) && NoneBegins(events) ensures !Forked(Run(c, events)) {
      NoneBeginsAhead(c, events);
      RunOneLine(c, events);
      OneLineNoFork(Run(c, events));
    }
  }
}
