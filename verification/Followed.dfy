/** What every step of a cluster of Storage nodes keeps, and what every run does: a settled
    database holds what was copied and taken, exactly (`standby/copies.rs`, `standby/follow.rs`). */
module Followed {
  import opened Wrappers
  import opened Copies
  import opened Bases
  import opened Standing
  import opened Clusters

  /** `after` is `p` gone on in its term: its databases as they were, its writes and more. */
  ghost predicate Grows(p: Node, after: Node) {
    && after.role == p.role && after.history == p.history && |after.bases| == |p.bases|
    && forall d | 0 <= d < |p.bases| ::
         after.bases[d].from == p.bases[d].from && after.bases[d].copied == p.bases[d].copied
         && p.bases[d].writes <= after.bases[d].writes
  }

  lemma CopyGrows(b: Base, p: Base, after: Base)
    requires CopiedFrom(b, p) && after.from == p.from && after.copied == p.copied && p.writes <= after.writes
    ensures CopiedFrom(b, after)
  {
    assert after.writes[after.from..b.from] == p.writes[p.from..b.from];
    assert p.writes[b.from..] <= after.writes[b.from..];
  }

  lemma LinkGrows(n: Node, p: Node, after: Node)
    requires LinkOk(n, p) && Grows(p, after)
    ensures LinkOk(n, after)
  {
    hide Fuzzy, Scanned, CopiedFrom;
    if n.role.Standby? && n.role.link.Copying? && p.role == Role.Primary(n.role.link.term) {
      var w := n.role.link.whole;
      forall d | 0 <= d < |w.done| ensures CopiedFrom(w.done[d], after.bases[d]) {
        CopyGrows(w.done[d], p.bases[d], after.bases[d]);
      }
      CopyGrows(w.now, p.bases[|w.done|], after.bases[|w.done|]);
    }
  }

  /** One node changed, as each step changes one: what holds of the others holds still, where it
      goes on in its term or is no primary of one before. */
  lemma SetNode(c: Cluster, k: nat, n: Node, terms: nat, lines: map<nat, seq<Line>>)
    requires Inv(c) && k < |c.nodes| && c.terms <= terms
    requires NodeOk(n) && TermsOk(n, terms)
    requires n.role.Standby? ==>
               n.role.primary < |c.nodes| && n.role.primary != k && LinkOk(n, c.nodes[n.role.primary])
    requires n.role.Primary? ==> Grows(c.nodes[k], n) || n.role.term > c.terms
    requires (n.history != 0 ==> n.history in lines) && c.lines.Keys <= lines.Keys
    requires forall h | h in lines :: |lines[h]| == DATABASES
    ensures Inv(Cluster(c.nodes[k := n], terms, lines))
  {
    hide NodeOk, LinkOk, Grows;
    var t := Cluster(c.nodes[k := n], terms, lines);
    forall i | 0 <= i < |t.nodes| && t.nodes[i].role.Standby?
      ensures t.nodes[i].role.primary < |t.nodes| && t.nodes[i].role.primary != i
      ensures LinkOk(t.nodes[i], PrimaryOf(t, i))
    {
      var p := t.nodes[i].role.primary;
      if i != k {
        assert t.nodes[i] == c.nodes[i] && LinkOk(c.nodes[i], c.nodes[p]);
        if p == k {
          LinkAfter(c.nodes[i], c.nodes[k], n, c.terms);
        }
      }
    }
  }

  lemma LinkAfter(n: Node, p: Node, after: Node, terms: nat)
    requires LinkOk(n, p) && TermsOk(n, terms)
    requires after.role.Primary? ==> Grows(p, after) || after.role.term > terms
    ensures LinkOk(n, after)
  {
    if after.role.Primary? && Grows(p, after) {
      LinkGrows(n, p, after);
    }
  }

  lemma OwnKeeps(c: Cluster, event: Event)
    requires Inv(c) && Enabled(c, event)
    requires event.Write? || event.Sync? || event.LetGo?
    ensures Inv(Next(c, event))
  {
    var n, after := c.nodes[event.i], NodeAfter(c, event);
    assert forall d | 0 <= d < DATABASES :: BaseOk(n.bases[d]);
    forall d | 0 <= d < DATABASES ensures BaseOk(after.bases[d]) {
      SameFuzzy(n.bases[d], after.bases[d]);
    }
    hide Fuzzy;
    if n.role.Standby? {
      assert LinkOk(n, PrimaryOf(c, event.i));
      LinkSame(n, after, PrimaryOf(c, event.i));
    }
    SetNode(c, event.i, after, c.terms, Next(c, event).lines);
  }

  lemma SameFuzzy(b: Base, after: Base)
    requires Fuzzy(b) && after.copied == b.copied && after.origin == b.origin && after.scan == b.scan
    ensures Fuzzy(after)
  {
    forall key: Key ensures ReadsSome(after.copied, after.origin, after.scan, key) {
      assert ReadsSome(b.copied, b.origin, b.scan, key);
    }
  }

  lemma LinkSame(n: Node, after: Node, p: Node)
    requires LinkOk(n, p) && after.role == n.role && after.history == n.history
    ensures LinkOk(after, p)
  {
  }

  lemma JoinKeeps(c: Cluster, event: Event)
    requires Inv(c) && Enabled(c, event)
    requires event.Finds? || event.FollowOn? || event.Lose? || event.StepDown?
    ensures Inv(Next(c, event))
  {
    hide Fuzzy;
    var n, after := c.nodes[event.i], NodeAfter(c, event);
    assert NodeOk(n);
    if event.FollowOn? {
      var p := PrimaryOf(c, event.i);
      assert NodeOk(p);
    }
    SetNode(c, event.i, after, c.terms, c.lines);
  }

  lemma CopyStarts(p: Base)
    requires p.from <= |p.writes|
    ensures CopiedFrom(CopyOf(p), p) && Scanned(CopyOf(p), 0)
  {
  }

  lemma WholeKeeps(c: Cluster, i: nat)
    requires Inv(c) && Enabled(c, StartWhole(i))
    ensures Inv(Next(c, StartWhole(i)))
  {
    hide Fuzzy, CopiedFrom, Scanned;
    var after, p := NodeAfter(c, StartWhole(i)), PrimaryOf(c, i);
    assert NodeOk(p);
    CopyStarts(p.bases[0]);
    BeganFuzzy(map[]);
    assert NodeOk(after);
    SetNode(c, i, after, c.terms, c.lines);
  }

  lemma PageKeepsBase(b: Base, p: Base, before: Key, to: Key)
    requires CopiedFrom(b, p) && Scanned(b, before) && before <= to
    ensures var more := b.(copied := b.copied + Page(Content(p), before, to), scan := p.writes[b.from..]);
            CopiedFrom(more, p) && Scanned(more, to)
  {
    ContentSince(b, p);
    PageScans(b, before, to, p.writes[b.from..]);
  }

  /** What a primary holds is what it held when the copy began, and its writes since. */
  lemma ContentSince(b: Base, p: Base)
    requires CopiedFrom(b, p)
    ensures Content(p) == Applied(b.origin, p.writes[b.from..])
  {
    assert p.writes[p.from..] == p.writes[p.from..b.from] + p.writes[b.from..];
    assert p.writes[p.from..|p.writes|] == p.writes[p.from..];
    AppliedParts(p.copied, p.writes[p.from..b.from], p.writes[b.from..]);
  }

  lemma PageKeeps(c: Cluster, i: nat, to: Key)
    requires Inv(c) && Enabled(c, TakePage(i, to))
    ensures Inv(Next(c, TakePage(i, to)))
  {
    hide Fuzzy, CopiedFrom, Scanned;
    var n, after, p := c.nodes[i], NodeAfter(c, TakePage(i, to)), PrimaryOf(c, i);
    assert NodeOk(n) && NodeOk(p) && LinkOk(n, p);
    var w := n.role.link.whole;
    PageKeepsBase(w.now, p.bases[|w.done|], w.before, to);
    SetNode(c, i, after, c.terms, c.lines);
  }

  lemma EndsFuzzy(b: Base, p: Base, before: Key)
    requires CopiedFrom(b, p) && Scanned(b, before) && forall k: Key | k in Content(p) :: k < before
    ensures var ended := b.(scan := p.writes[b.from..]); CopiedFrom(ended, p) && Fuzzy(ended)
  {
    ContentSince(b, p);
    ScanEnds(b, before, p.writes[b.from..]);
  }

  lemma EndKeeps(c: Cluster, i: nat)
    requires Inv(c) && Enabled(c, EndBase(i))
    ensures Inv(Next(c, EndBase(i)))
  {
    hide Fuzzy, Scanned;
    var n, after, p := c.nodes[i], NodeAfter(c, EndBase(i)), PrimaryOf(c, i);
    assert NodeOk(n) && NodeOk(p) && LinkOk(n, p);
    var w := n.role.link.whole;
    EndsFuzzy(w.now, p.bases[|w.done|], w.before);
    if |w.done| + 1 < DATABASES {
      CopyStarts(p.bases[|w.done| + 1]);
    }
    hide CopiedFrom;
    EndedOk(n, p);
    SetNode(c, i, after, c.terms, c.lines);
  }

  lemma EndedOk(n: Node, p: Node)
    requires NodeOk(n) && NodeOk(p) && LinkOk(n, p) && p.history != 0
    requires n.role.Standby? && n.role.link.Copying? && p.role == Role.Primary(n.role.link.term)
    requires n.role.link.whole.now.from <= |p.bases[|n.role.link.whole.done|].writes|
    requires var w := n.role.link.whole;
             var ended := w.now.(scan := p.bases[|w.done|].writes[w.now.from..]);
             CopiedFrom(ended, p.bases[|w.done|]) && Fuzzy(ended)
    requires var w := n.role.link.whole;
             |w.done| + 1 < DATABASES ==>
               CopiedFrom(CopyOf(p.bases[|w.done| + 1]), p.bases[|w.done| + 1]) && Scanned(CopyOf(p.bases[|w.done| + 1]), 0)
    ensures NodeOk(Ended(n, p)) && LinkOk(Ended(n, p), p)
  {
    hide Fuzzy, Scanned;
  }

  lemma ShippedKeeps(c: Cluster, event: Event)
    requires Inv(c) && Enabled(c, event) && (event.Ship? || event.TakeCopy?)
    ensures Inv(Next(c, event))
  {
    var n, after, p := c.nodes[event.i], NodeAfter(c, event), PrimaryOf(c, event.i);
    assert NodeOk(n) && LinkOk(n, p);
    if event.TakeCopy? {
      var d := event.d;
      SameFuzzy(n.bases[d], after.bases[d]);
      assert BaseOk(after.bases[d]);
    }
    hide Fuzzy;
    SetNode(c, event.i, after, c.terms, c.lines);
  }

  lemma RestartKeeps(c: Cluster, i: nat, back: seq<nat>)
    requires Inv(c) && Enabled(c, Restart(i, back))
    ensures Inv(Next(c, Restart(i, back)))
  {
    var n, after := c.nodes[i], NodeAfter(c, Restart(i, back));
    assert NodeOk(n);
    forall d | 0 <= d < DATABASES ensures BaseOk(after.bases[d]) {
      assert BaseOk(n.bases[d]);
      if after.history != 0 {
        SameFuzzy(n.bases[d], after.bases[d]);
      } else {
        BeganFuzzy(after.bases[d].copied);
      }
    }
    hide Fuzzy;
    SetNode(c, i, after, c.terms, c.lines);
  }

  lemma PromoteKeeps(c: Cluster, i: nat, answered: seq<nat>, named: nat)
    requires Inv(c) && Enabled(c, Promote(i, answered, named))
    ensures Inv(Next(c, Promote(i, answered, named)))
  {
    var event := Promote(i, answered, named);
    var n, after := c.nodes[i], NodeAfter(c, event);
    assert NodeOk(n);
    forall d | 0 <= d < DATABASES ensures BaseOk(after.bases[d]) {
      SameFuzzy(n.bases[d], after.bases[d]);
    }
    hide Fuzzy;
    SetNode(c, i, after, c.terms + 1, Next(c, event).lines);
  }

  lemma StepKeeps(c: Cluster, event: Event)
    requires Inv(c) && Enabled(c, event)
    ensures Inv(Next(c, event))
  {
    hide Inv, Enabled, Next;
    match event {
      case Write(_, _, _) => OwnKeeps(c, event);
      case Sync(_) => OwnKeeps(c, event);
      case LetGo(_, _, _) => OwnKeeps(c, event);
      case Finds(_, _) => JoinKeeps(c, event);
      case FollowOn(_) => JoinKeeps(c, event);
      case StartWhole(i) => WholeKeeps(c, i);
      case TakePage(i, to) => PageKeeps(c, i, to);
      case EndBase(i) => EndKeeps(c, i);
      case Ship(_, _, _) => ShippedKeeps(c, event);
      case TakeCopy(_, _) => ShippedKeeps(c, event);
      case Lose(_) => JoinKeeps(c, event);
      case Restart(i, back) => RestartKeeps(c, i, back);
      case StepDown(_) => JoinKeeps(c, event);
      case Promote(i, answered, named) => PromoteKeeps(c, i, answered, named);
    }
  }

  lemma FreshHolds(c: Cluster)
    requires Fresh(c)
    ensures Inv(c)
  {
    forall i, d | 0 <= i < |c.nodes| && 0 <= d < DATABASES ensures BaseOk(c.nodes[i].bases[d]) {
      BeganFuzzy(c.nodes[i].bases[d].copied);
    }
    hide Fuzzy;
  }

  // ---- Runs. ----

  /** Each event can happen as the last left the cluster; what holds of a cluster is part of it,
      as `StepKeeps` shows it always is. */
  ghost predicate CanRun(c: Cluster, events: seq<Event>)
    decreases |events|
  {
    Inv(c) && (events == [] || (Enabled(c, events[0]) && CanRun(Next(c, events[0]), events[1..])))
  }

  ghost function Run(c: Cluster, events: seq<Event>): Cluster
    requires CanRun(c, events)
    decreases |events|
  {
    if events == [] then c else Run(Next(c, events[0]), events[1..])
  }

  lemma {:induction false} RunKeeps(c: Cluster, events: seq<Event>)
    requires CanRun(c, events)
    ensures Inv(Run(c, events))
    decreases |events|
  {
    if events != [] {
      RunKeeps(Next(c, events[0]), events[1..]);
    }
  }

  lemma RunFirst(c: Cluster, event: Event, rest: seq<Event>)
    requires Inv(c) && Enabled(c, event) && CanRun(Next(c, event), rest)
    ensures CanRun(c, [event] + rest) && Run(c, [event] + rest) == Run(Next(c, event), rest)
  {
    assert ([event] + rest)[1..] == rest;
  }
}
