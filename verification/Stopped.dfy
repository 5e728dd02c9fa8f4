/** What a standby holds of a primary that is stopped: its shipping to the standby is the cluster's,
    event by event, so one that takes all it was handed holds the primary's last database
    (`standby.rs`, `standby/ship.rs`, `standby/follow.rs`). */
module Stopped {
  import opened Copies
  import opened Bases
  import opened Clusters
  import opened Followed
  import opened Histories
  import S = Stopping

  /** Node `i` is the standby `s` ships to, over a connection that follows it: what each of its
      databases wrote, and what the standby was handed of it, none let go of before. */
  ghost predicate Ships(s: S.Primary, c: Cluster, i: nat) {
    && Linked(c, i) && c.nodes[i].role.link.Following?
    && s.writes == WritesOf(PrimaryOf(c, i).bases) && s.handed == c.nodes[i].role.link.sent
    && |s.handed| == DATABASES == |s.writes|
    && forall d | 0 <= d < DATABASES :: PrimaryOf(c, i).bases[d].first <= |s.handed[d]|
  }

  lemma WritesOn(s: S.Primary, d: nat, batch: Changes, c: Cluster, i: nat)
    requires Inv(c) && Ships(s, c, i) && S.Enabled(s, S.WriteOne(d, batch))
    ensures var event := Write(c.nodes[i].role.primary, d, batch);
            && Enabled(c, event) && Inv(Next(c, event)) && Ships(S.Next(s, S.WriteOne(d, batch)), Next(c, event), i)
            && Next(c, event).nodes[i].bases == c.nodes[i].bases
  {
    var p := c.nodes[i].role.primary;
    assert NodeOk(c.nodes[p]);
    var event := Write(p, d, batch);
    StepKeeps(c, event);
    var t := Next(c, event);
    assert WritesOf(t.nodes[p].bases) == WritesOf(c.nodes[p].bases)[d := s.writes[d] + [batch]];
  }

  lemma HandsOnMore(s: S.Primary, to: nat, c: Cluster, i: nat)
    requires Inv(c) && Ships(s, c, i) && S.Enabled(s, S.HandOn(to))
    ensures var event := Ship(i, s.shipping.at, to);
            && Enabled(c, event) && Inv(Next(c, event)) && Ships(S.Next(s, S.HandOn(to)), Next(c, event), i)
            && Next(c, event).nodes[i].bases == c.nodes[i].bases
  {
    var p, d := c.nodes[i].role.primary, s.shipping.at;
    assert NodeOk(c.nodes[p]) && NodeOk(c.nodes[i]) && LinkOk(c.nodes[i], c.nodes[p]);
    var event := Ship(i, d, to);
    StepKeeps(c, event);
    assert s.handed[d] <= s.writes[d] == c.nodes[p].bases[d].writes;
    assert s.handed[d] + s.writes[d][|s.handed[d]|..to] == s.writes[d][..to];
  }

  lemma ElseShips(s: S.Primary, event: S.Event, c: Cluster, i: nat)
    requires Ships(s, c, i) && S.Enabled(s, event) && !event.WriteOne? && !event.HandOn?
    ensures Ships(S.Next(s, event), c, i)
  {
  }

  /** Whatever a primary does as it is stopped is some run of the cluster, the standby taking
      nothing meanwhile. */
  lemma {:induction false} ShipsOn(s: S.Primary, stops: seq<S.Event>, c: Cluster, i: nat)
    returns (events: seq<Event>, t: Cluster)
    requires Inv(c) && Ships(s, c, i) && S.CanRun(s, stops)
    ensures CanRun(c, events) && NoneBegins(events) && t == Run(c, events) && Inv(t)
    ensures Ships(S.Run(s, stops), t, i) && i < |t.nodes| && i < |c.nodes| && t.nodes[i].bases == c.nodes[i].bases
    decreases |stops|
  {
    hide Inv, Run, CanRun, S.Next;
    if stops == [] {
      events, t := [], c;
      NoneRun(c);
    } else if stops[0].WriteOne? || stops[0].HandOn? {
      var event: Event;
      match stops[0] {
        case WriteOne(d, batch) =>
          WritesOn(s, d, batch, c, i);
          event := Write(c.nodes[i].role.primary, d, batch);
        case HandOn(to) =>
          HandsOnMore(s, to, c, i);
          event := Ship(i, s.shipping.at, to);
      }
      hide Ships;
      var rest;
      rest, t := ShipsOn(S.Next(s, stops[0]), stops[1..], Next(c, event), i);
      events := [event] + rest;
      RunFirst(c, event, rest);
    } else {
      ElseShips(s, stops[0], c, i);
      hide Ships;
      events, t := ShipsOn(S.Next(s, stops[0]), stops[1..], c, i);
    }
  }

  /** In every run of a cluster that goes on from nodes ahead and whole, to a primary stopped in
      order whose connection to a standby has ended: the standby, once it took all it was handed
      and is settled, holds each of the primary's databases as the primary holds it, and as it
      does whatever it is asked after. */
  lemma StoppedIsHeld(c: Cluster, events: seq<Event>, i: nat, d: nat, start: S.Primary, stops: seq<S.Event>,
                      after: seq<S.Event>)
    requires Fresh(c) && CanRun(c, events) && AheadAlways(c, events) && WholeAlways(c, events)
    requires S.Serving(start) || S.Orderly(start)
    requires S.CanRun(start, stops) && S.WaitsOut(start, stops) && S.Run(start, stops).shipping.Ended?
    requires S.CanRun(S.Run(start, stops), after)
    requires Ships(S.Run(start, stops), Run(c, events), i) && d < DATABASES
    requires var n := Run(c, events).nodes[i];
             |n.bases| == DATABASES && |n.bases[d].writes| == |n.role.link.sent[d]| && Settled(n.bases[d])
    ensures var t := Run(c, events); var n, p := t.nodes[i], PrimaryOf(t, i);
            && S.Run(S.Run(start, stops), after).writes == WritesOf(p.bases)
            && |p.bases| == DATABASES && p.bases[d].from <= |p.bases[d].writes| && n.bases[d].writes == p.bases[d].writes
            && Content(n.bases[d]) == Content(p.bases[d])
  {
    RunHolds(c, events);
    S.StopLosesNothing(start, stops, after);
    var t := Run(c, events);
    var n, p := t.nodes[i], PrimaryOf(t, i);
    assert NodeOk(n) && NodeOk(p) && LinkOk(n, p);
    assert WritesIn(n, t.lines[n.history]) && WritesIn(p, t.lines[p.history]);
    hide Fresh, CanRun, Run, AheadAlways, WholeAlways;
    StandbyHoldsPrefix(c, events, i, d);
    StandbyHoldsPrefix(c, events, n.role.primary, d);
  }
}
