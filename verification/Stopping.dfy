/** What a primary that is stopped has handed a standby by the time it ends its connection
    (`standby.rs`, `standby/served.rs`, `standby/ship.rs`). */
module Stopping {
  import opened Copies

  const DATABASES: nat := 3

  /** Where a primary's shipping to one standby is: looking whether it is to end, handing on what
      there is of one database after another, or ended. */
  datatype Shipping = Looking | Handing(ending: bool, at: nat, any: bool) | Ended

  datatype Primary = Primary(
    writes: seq<seq<Changes>>,  // what each database has taken
    lent: nat,                // operations its databases are lent to
    stopping: bool,
    drained: bool,
    server: bool,             // the server's own stop
    handed: seq<seq<Changes>>,  // what the standby was handed of each
    shipping: Shipping)

  datatype Event =
    | Lend                             // an operation begins; refused where it is stopping
    | WriteOne(d: nat, batch: Changes)   // by an operation under way
    | GiveBack
    | Stop
    | Drain(waited: bool)              // every operation given back; or the wait given up
    | StopServer
    | Look
    | HandOn(to: nat)                  // what is there of the database it is at, one write at least
    | EndTurn

  predicate Enabled(p: Primary, event: Event) {
    match event
    case Lend => !p.stopping
    case WriteOne(d, _) => p.lent > 0 && d < |p.writes|
    case GiveBack => p.lent > 0
    case Stop => true
    case Drain(waited) => p.stopping && (waited ==> p.lent == 0)
    case StopServer => true
    case Look => p.shipping.Looking?
    case HandOn(to) =>
      && p.shipping.Handing? && p.shipping.at < |p.handed| == |p.writes|
      && var next, there := |p.handed[p.shipping.at]|, |p.writes[p.shipping.at]|;
      && next <= to <= there && (next < there ==> next < to)
    case EndTurn => p.shipping.Handing? && p.shipping.at == |p.handed|
  }

  function Next(p: Primary, event: Event): Primary
    requires Enabled(p, event)
  {
    match event
    case Lend => p.(lent := p.lent + 1)
    case WriteOne(d, batch) => p.(writes := p.writes[d := p.writes[d] + [batch]])
    case GiveBack => p.(lent := p.lent - 1)
    case Stop => p.(stopping := true)
    case Drain(_) => p.(drained := true)
    case StopServer => p.(server := true)
    case Look => p.(shipping := Handing(p.drained || p.server, 0, false))
    case HandOn(to) =>
      var s := p.shipping;
      var next := |p.handed[s.at]|;
      p.(handed := p.handed[s.at := p.handed[s.at] + p.writes[s.at][next..to]],
         shipping := Handing(s.ending, s.at + 1, s.any || next < to))
    case EndTurn => p.(shipping := if p.shipping.ending && !p.shipping.any then Ended else Looking)
  }

  predicate CanRun(p: Primary, events: seq<Event>)
    decreases |events|
  {
    events == [] || (Enabled(p, events[0]) && CanRun(Next(p, events[0]), events[1..]))
  }

  function Run(p: Primary, events: seq<Event>): Primary
    requires CanRun(p, events)
    decreases |events|
  {
    if events == [] then p else Run(Next(p, events[0]), events[1..])
  }

  /** It waited out every operation before it said it was drained, and its server stops after. */
  predicate WaitsOut(p: Primary, events: seq<Event>)
    requires CanRun(p, events)
    decreases |events|
  {
    events == [] ||
    ((events[0].Drain? ==> p.lent == 0) && (events[0].StopServer? ==> p.drained) && WaitsOut(Next(p, events[0]), events[1..]))
  }

  predicate Orderly(p: Primary) {
    && |p.writes| == |p.handed| == DATABASES
    && (forall d | 0 <= d < DATABASES :: p.handed[d] <= p.writes[d])
    && (p.drained ==> p.stopping && p.lent == 0) && (p.server ==> p.drained)
    && match p.shipping
       case Looking => true
       case Handing(ending, at, any) =>
         at <= DATABASES && (ending ==> p.drained && (!any ==> forall d | 0 <= d < at :: p.handed[d] == p.writes[d]))
       case Ended => p.drained && p.handed == p.writes
  }

  lemma StepOrderly(p: Primary, event: Event)
    requires Orderly(p) && Enabled(p, event) && (event.Drain? ==> p.lent == 0) && (event.StopServer? ==> p.drained)
    ensures Orderly(Next(p, event))
  {
    if event.HandOn? {
      var at := p.shipping.at;
      var next := |p.handed[at]|;
      assert p.writes[at][..next] == p.handed[at];
      assert p.handed[at] + p.writes[at][next..event.to] == p.writes[at][..event.to];
    }
  }

  lemma {:induction false} RunOrderly(p: Primary, events: seq<Event>)
    requires Orderly(p) && CanRun(p, events) && WaitsOut(p, events)
    ensures Orderly(Run(p, events))
    decreases |events|
  {
    if events != [] {
      StepOrderly(p, events[0]);
      RunOrderly(Next(p, events[0]), events[1..]);
    }
  }

  /** One serving, whatever it wrote and has handed on of that. */
  predicate Serving(p: Primary) {
    && !p.stopping && !p.drained && !p.server && p.shipping.Looking? && |p.writes| == |p.handed| == DATABASES
    && forall d | 0 <= d < DATABASES :: p.handed[d] <= p.writes[d]
  }

  /** From any primary serving, or stopping in order, in every interleaving of its operations with
      its shipping, one that waits out its operations has handed its standby every write of every
      database it ever takes, in order, by the time the connection ends. */
  lemma StopLosesNothing(start: Primary, events: seq<Event>, after: seq<Event>)
    requires Serving(start) || Orderly(start)
    requires CanRun(start, events) && WaitsOut(start, events)
    requires CanRun(Run(start, events), after) && Run(start, events).shipping.Ended?
    ensures var p := Run(start, events);
            p.handed == p.writes && Run(p, after).writes == p.writes && Run(p, after).handed == p.handed
  {
    RunOrderly(start, events);
    var p := Run(start, events);
    EndedStays(p, after);
  }

  lemma {:induction false} EndedStays(p: Primary, events: seq<Event>)
    requires p.shipping.Ended? && p.stopping && p.lent == 0 && CanRun(p, events)
    ensures Run(p, events).writes == p.writes && Run(p, events).handed == p.handed
    decreases |events|
  {
    if events != [] {
      EndedStays(Next(p, events[0]), events[1..]);
    }
  }

  /** Whatever is written after, the standby was handed all of it. */
  ghost predicate LosesNothing(p: Primary) {
    forall after | CanRun(p, after) :: Run(p, after).writes == Run(p, after).handed
  }

  /** Once the connection has ended with all handed on, nothing is ever lost where, and only
      where, no operation is under way and none can begin: the wait for them is given up after
      its timeout, and the server may be stopped without the node. */
  lemma EndedLosesNothing(p: Primary)
    requires p.shipping.Ended? && |p.writes| == DATABASES && p.handed == p.writes
    ensures LosesNothing(p) <==> p.stopping && p.lent == 0
  {
    if p.stopping && p.lent == 0 {
      forall after | CanRun(p, after) ensures Run(p, after).writes == Run(p, after).handed {
        EndedStays(p, after);
      }
    } else if p.lent > 0 {
      WritesLost(p, p, []);
    } else {
      var lent := Next(p, Lend);
      assert CanRun(lent, []);
      assert [Lend][1..] == [];
      WritesLost(p, lent, [Lend]);
    }
  }

  lemma WritesLost(p: Primary, q: Primary, events: seq<Event>)
    requires CanRun(p, events) && Run(p, events) == q && |events| <= 1
    requires q.shipping.Ended? && q.lent > 0 && |q.writes| == DATABASES && q.handed == q.writes
    ensures !LosesNothing(p)
  {
    var write := WriteOne(0, map[]);
    var lost := Next(q, write);
    assert |lost.writes[0]| == |lost.handed[0]| + 1;
    var all := events + [write];
    assert [write][1..] == [] && CanRun(lost, []) && Run(lost, []) == lost;
    assert CanRun(q, [write]) && Run(q, [write]) == lost;
    if events == [] {
      assert all == [write];
    } else {
      assert all == [events[0], write] && all[1..] == [write] && events[1..] == [];
      assert Run(Next(p, events[0]), []) == Next(p, events[0]) == q;
    }
    assert CanRun(p, all) && Run(p, all) == lost;
  }
}
