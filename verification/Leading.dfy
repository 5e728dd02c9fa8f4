/** Who decides the next batch (`commit/waiting.rs`): the caller that finds none deciding leads,
    and hands the lead on once its own write is answered. Every caller is a thread of its own;
    a step is what one of them does between two looks at what they share. */
module Leading {

  const GROUP: nat := 1024

  /** Where a caller that leads is in the loop it leads by. */
  datatype Stage =
    | Ready                      // about to take the writes waiting
    | Deciding(group: seq<nat>)  // its batch taken
    | Checking                   // its batch answered, or failed; its own looked for
    | Passing(ok: bool)          // its own answered, the lead to be handed on

  datatype Leader = Leader(caller: nat, stage: Stage)

  /** A caller is known by its one write. */
  datatype State = State(
    writes: seq<nat>,
    leading: bool,
    leaders: seq<Leader>,
    // What was sent to callers and not received: their write's answer, failed where its batch
    // failed; or to lead.
    answers: map<nat, bool>,
    leads: seq<nat>,
    blocked: set<nat>,
    arrived: set<nat>,
    returned: seq<nat>)

  const IDLE := State([], false, [], map[], [], {}, {}, [])

  datatype Step =
    | Arrive(caller: nat)
    | TakeGroup(at: nat)
    | Commit(at: nat, answered: nat)  // a batch that panics answers none past `answered`
    | Check(at: nat)
    | Pass(at: nat)
    | Receive(caller: nat)

  predicate Enabled(s: State, step: Step) {
    match step
    case Arrive(caller) => caller !in s.arrived
    case TakeGroup(at) => at < |s.leaders| && s.leaders[at].stage.Ready?
    case Commit(at, answered) =>
      at < |s.leaders| && s.leaders[at].stage.Deciding? && answered <= |s.leaders[at].stage.group|
    case Check(at) => at < |s.leaders| && s.leaders[at].stage.Checking?
    case Pass(at) => at < |s.leaders| && s.leaders[at].stage.Passing?
    case Receive(caller) => caller in s.blocked && (caller in s.answers || caller in s.leads)
  }

  function Without(leaders: seq<Leader>, at: nat): seq<Leader>
    requires at < |leaders|
  {
    leaders[..at] + leaders[at + 1..]
  }

  /** What the callers of a batch are sent: its answer, or that it failed. */
  function Sent(group: seq<nat>, answered: nat): map<nat, bool> {
    map i | i in group :: i in group[..if answered <= |group| then answered else |group|]
  }

  function Elements(group: seq<nat>): set<nat> {
    set i | i in group
  }

  function Minus(s: seq<nat>, one: nat): seq<nat> {
    if s == [] then [] else if s[0] == one then s[1..] else [s[0]] + Minus(s[1..], one)
  }

  function Next(s: State, step: Step): State
    requires Enabled(s, step)
  {
    match step
    case Arrive(caller) =>
      var t := s.(writes := s.writes + [caller], arrived := s.arrived + {caller}, leading := true);
      if s.leading then t.(blocked := s.blocked + {caller})
      else t.(leaders := s.leaders + [Leader(caller, Ready)])
    case TakeGroup(at) =>
      var caller := s.leaders[at].caller;
      if s.writes == [] then
        // Nothing to lead, its own not answered: it waits like any other.
        s.(leading := false, leaders := Without(s.leaders, at), blocked := s.blocked + {caller})
      else
        var taken := if |s.writes| <= GROUP then |s.writes| else GROUP;
        s.(writes := s.writes[taken..],
           leaders := s.leaders[at := Leader(caller, Deciding(s.writes[..taken]))])
    case Commit(at, answered) =>
      s.(answers := s.answers + Sent(s.leaders[at].stage.group, answered),
         leaders := s.leaders[at := Leader(s.leaders[at].caller, Checking)])
    case Check(at) =>
      var caller := s.leaders[at].caller;
      if caller in s.answers then
        s.(answers := s.answers - {caller}, leaders := s.leaders[at := Leader(caller, Passing(s.answers[caller]))])
      else s.(leads := Minus(s.leads, caller), leaders := s.leaders[at := Leader(caller, Ready)])
    case Pass(at) =>
      var t := s.(leaders := Without(s.leaders, at), returned := s.returned + [s.leaders[at].caller]);
      if s.writes == [] then t.(leading := false) else t.(leads := s.leads + [s.writes[0]])
    case Receive(caller) =>
      if caller in s.answers then
        s.(answers := s.answers - {caller}, blocked := s.blocked - {caller}, returned := s.returned + [caller])
      else
        s.(leads := Minus(s.leads, caller), blocked := s.blocked - {caller},
           leaders := s.leaders + [Leader(caller, Ready)])
  }

  // ---- What every step keeps. ----

  function InHand(leaders: seq<Leader>): multiset<nat> {
    if leaders == [] then multiset{}
    else
      (match leaders[0].stage
       case Deciding(group) => multiset(group)
       case Passing(_) => multiset{leaders[0].caller}
       case _ => multiset{})
      + InHand(leaders[1..])
  }

  /** Each write that arrived is at one place, once: waiting, in a batch, answered, or its
      caller gone with its answer. */
  function Everywhere(s: State): multiset<nat> {
    multiset(s.writes) + InHand(s.leaders) + multiset(s.answers.Keys) + multiset(s.returned)
  }

  /** One leads, or was sent the lead; it is the first waiting that was. */
  ghost predicate OneLeads(s: State) {
    && |s.leaders| + |s.leads| == (if s.leading then 1 else 0)
    && (s.writes != [] ==> s.leading)
    && (s.leads != [] ==> s.writes != [] && s.leads == [s.writes[0]] && s.leads[0] in s.blocked)
  }

  /** A leader's own write is with it until it is answered. */
  ghost predicate OwnWrite(s: State) {
    s.leaders != [] ==>
      var leader := s.leaders[0];
      && leader.caller !in s.blocked
      && match leader.stage
         case Ready => leader.caller in s.writes
         case Deciding(group) => leader.caller in s.writes || leader.caller in group
         case Checking => leader.caller in s.writes || leader.caller in s.answers
         case Passing(_) => true
  }

  /** Every other caller with a write unanswered, or an answer unread, waits. */
  ghost predicate OthersWait(s: State) {
    forall caller | caller in s.arrived && caller !in s.returned ::
      caller in s.blocked || (s.leaders != [] && s.leaders[0].caller == caller)
  }

  ghost predicate Inv(s: State) {
    && OneLeads(s) && OwnWrite(s) && OthersWait(s)
    && Everywhere(s) == multiset(s.arrived)
    && s.blocked <= s.arrived
    && (forall caller | caller in s.blocked :: caller !in s.returned)
    && (s.leaders != [] && s.leaders[0].stage.Deciding? ==> s.leaders[0].stage.group != [])
  }

  /** A write is at one place, and where. */
  lemma Where(s: State, caller: nat)
    requires Everywhere(s) == multiset(s.arrived)
    ensures multiset(s.writes)[caller] + InHand(s.leaders)[caller] + (if caller in s.answers then 1 else 0)
            + multiset(s.returned)[caller] == if caller in s.arrived then 1 else 0
    ensures caller in s.writes <==> multiset(s.writes)[caller] > 0
    ensures caller in s.returned <==> multiset(s.returned)[caller] > 0
  {
    assert Everywhere(s)[caller] == multiset(s.arrived)[caller];
    assert multiset(s.answers.Keys)[caller] == if caller in s.answers then 1 else 0;
    assert caller in multiset(s.writes) <==> caller in s.writes;
    assert caller in multiset(s.returned) <==> caller in s.returned;
  }

  /** What a leader has in hand of its own. */
  lemma InHandIs(s: State)
    requires |s.leaders| == 1
    ensures InHand(s.leaders)
         == match s.leaders[0].stage
            case Deciding(group) => multiset(group)
            case Passing(_) => multiset{s.leaders[0].caller}
            case _ => multiset{}
  {
    assert s.leaders[1..] == [];
  }

  lemma OneMore(arrived: set<nat>, caller: nat)
    requires caller !in arrived
    ensures multiset(arrived + {caller}) == multiset(arrived) + multiset{caller}
  {
  }

  lemma ArriveConserves(s: State, caller: nat)
    requires Inv(s) && Enabled(s, Arrive(caller))
    ensures Everywhere(Next(s, Arrive(caller))) == Everywhere(s) + multiset{caller}
  {
    var t := Next(s, Arrive(caller));
    if !s.leading {
      assert s.leaders == [] && t.leaders == [Leader(caller, Ready)];
      assert t.leaders[1..] == [];
      assert InHand(t.leaders) == multiset{} == InHand(s.leaders);
    }
    assert multiset(t.writes) == multiset(s.writes) + multiset{caller};
  }

  lemma ArriveKeeps(s: State, caller: nat)
    requires Inv(s) && Enabled(s, Arrive(caller))
    ensures Inv(Next(s, Arrive(caller)))
  {
    NotThere(s, caller);
    ArriveConserves(s, caller);
    OneMore(s.arrived, caller);
    hide Everywhere;
    var t := Next(s, Arrive(caller));
    if !s.leading {
      assert s.leaders == [] && t.leaders == [Leader(caller, Ready)];
    }
  }

  lemma NotThere(s: State, caller: nat)
    requires Inv(s) && caller !in s.arrived
    ensures caller !in s.returned && caller !in s.blocked && caller !in s.writes && caller !in s.answers
    ensures s.leaders != [] ==> s.leaders[0].caller != caller
  {
    Where(s, caller);
    if s.leaders != [] {
      InHandIs(s);
      var leader := s.leaders[0];
      if leader.stage.Deciding? && leader.caller in leader.stage.group {
        assert leader.caller in multiset(leader.stage.group);
      }
    }
  }

  lemma TakeKeeps(s: State, at: nat)
    requires Inv(s) && Enabled(s, TakeGroup(at))
    ensures Inv(Next(s, TakeGroup(at))) && s.writes != []
  {
    assert |s.leaders| == 1 && at == 0 && s.leaders[1..] == [];
    var taken := if |s.writes| <= GROUP then |s.writes| else GROUP;
    assert s.writes == s.writes[..taken] + s.writes[taken..];
    var t := Next(s, TakeGroup(at));
    assert t.leaders[1..] == [];
  }

  lemma SentAll(group: seq<nat>, answered: nat)
    ensures Sent(group, answered).Keys == Elements(group)
  {
  }

  lemma {:induction false} DistinctAsSet(group: seq<nat>)
    requires forall one :: multiset(group)[one] <= 1
    ensures multiset(Elements(group)) == multiset(group)
  {
    forall one ensures multiset(Elements(group))[one] == multiset(group)[one] {
      if one in group {
        assert one in multiset(group);
      }
    }
  }

  lemma AddedKeys(answers: map<nat, bool>, sent: map<nat, bool>)
    requires answers.Keys !! sent.Keys
    ensures multiset((answers + sent).Keys) == multiset(answers.Keys) + multiset(sent.Keys)
  {
    assert (answers + sent).Keys == answers.Keys + sent.Keys;
  }

  lemma GroupOnce(s: State, one: nat)
    requires Inv(s) && s.leaders != [] && s.leaders[0].stage.Deciding?
    ensures var group := s.leaders[0].stage.group;
            multiset(group)[one] <= 1 && (one in group ==> one !in s.answers)
  {
    Where(s, one);
    InHandIs(s);
    var group := s.leaders[0].stage.group;
    assert one in multiset(group) <==> one in group;
  }

  lemma CommitConserves(s: State, at: nat, answered: nat)
    requires Inv(s) && Enabled(s, Commit(at, answered))
    ensures Everywhere(Next(s, Commit(at, answered))) == Everywhere(s)
  {
    var t := Next(s, Commit(at, answered));
    var group := s.leaders[0].stage.group;
    forall one ensures multiset(group)[one] <= 1 && (one in group ==> one !in s.answers) {
      GroupOnce(s, one);
    }
    SentAll(group, answered);
    DistinctAsSet(group);
    AddedKeys(s.answers, Sent(group, answered));
    InHandIs(s);
    InHandIs(t);
    hide Inv, Sent, Elements;
  }

  lemma CommitKeeps(s: State, at: nat, answered: nat)
    requires Inv(s) && Enabled(s, Commit(at, answered))
    ensures Inv(Next(s, Commit(at, answered)))
  {
    CommitConserves(s, at, answered);
    hide Everywhere;
    assert |s.leaders| == 1 && at == 0;
    SentAll(s.leaders[0].stage.group, answered);
  }

  lemma {:induction false} MinusLess(s: seq<nat>, one: nat)
    ensures one in s ==> |Minus(s, one)| == |s| - 1
    ensures one !in s ==> Minus(s, one) == s
  {
    if s != [] && s[0] != one {
      MinusLess(s[1..], one);
    }
  }

  lemma CheckKeeps(s: State, at: nat)
    requires Inv(s) && Enabled(s, Check(at))
    ensures Inv(Next(s, Check(at)))
  {
    assert |s.leaders| == 1 && at == 0 && s.leaders[1..] == [] && s.leads == [];
    var t := Next(s, Check(at));
    var caller := s.leaders[0].caller;
    assert t.leaders[1..] == [];
    MinusLess(s.leads, caller);
    if caller in s.answers {
      assert multiset(s.answers.Keys) == multiset(t.answers.Keys) + multiset{caller};
    }
  }

  lemma PassConserves(s: State, at: nat)
    requires Inv(s) && Enabled(s, Pass(at))
    ensures Everywhere(Next(s, Pass(at))) == Everywhere(s)
    ensures multiset(s.returned)[s.leaders[0].caller] == 0
  {
    assert |s.leaders| == 1 && at == 0 && s.leaders[1..] == [];
    var t := Next(s, Pass(at));
    var caller := s.leaders[0].caller;
    InHandIs(s);
    assert t.leaders == [] && InHand(t.leaders) == multiset{};
    assert multiset(t.returned) == multiset(s.returned) + multiset{caller};
    Where(s, caller);
    assert InHand(s.leaders)[caller] == 1;
  }

  lemma PassKeeps(s: State, at: nat)
    requires Inv(s) && Enabled(s, Pass(at))
    ensures Inv(Next(s, Pass(at)))
  {
    hide Everywhere;
    assert |s.leaders| == 1 && at == 0 && s.leaders[1..] == [];
    var t := Next(s, Pass(at));
    var caller := s.leaders[0].caller;
    assert t.leaders == [];
    PassConserves(s, at);
    Where(s, caller);
    InHandIs(s);
    if s.writes != [] {
      var first := s.writes[0];
      Where(s, first);
      assert first in s.arrived && first !in s.returned && first != caller;
    }
  }

  lemma TakenKey(answers: map<nat, bool>, one: nat)
    requires one in answers
    ensures multiset(answers.Keys) == multiset((answers - {one}).Keys) + multiset{one}
  {
    assert answers.Keys == (answers - {one}).Keys + {one};
  }

  lemma AnswerConserves(s: State, t: State, caller: nat)
    requires caller in s.answers
    requires t.writes == s.writes && t.leaders == s.leaders && t.answers == s.answers - {caller}
    requires t.returned == s.returned + [caller]
    ensures Everywhere(t) == Everywhere(s)
  {
    TakenKey(s.answers, caller);
    assert multiset(t.returned) == multiset(s.returned) + multiset{caller};
  }

  lemma AnswerKeeps(s: State, caller: nat)
    requires Inv(s) && Enabled(s, Receive(caller)) && caller in s.answers
    ensures Inv(Next(s, Receive(caller)))
  {
    hide Everywhere;
    Where(s, caller);
    if s.leads != [] {
      Where(s, s.writes[0]);
    }
    AnswerConserves(s, Next(s, Receive(caller)), caller);
  }

  lemma LeadKeeps(s: State, caller: nat)
    requires Inv(s) && Enabled(s, Receive(caller)) && caller !in s.answers
    ensures Inv(Next(s, Receive(caller)))
  {
    var t := Next(s, Receive(caller));
    MinusLess(s.leads, caller);
    assert s.leaders == [] && t.leaders == [Leader(caller, Ready)];
    InHandIs(t);
    assert Everywhere(t) == Everywhere(s);
    Where(s, caller);
    hide Everywhere;
  }

  lemma ReceiveKeeps(s: State, caller: nat)
    requires Inv(s) && Enabled(s, Receive(caller))
    ensures Inv(Next(s, Receive(caller)))
  {
    if caller in s.answers {
      AnswerKeeps(s, caller);
    } else {
      LeadKeeps(s, caller);
    }
  }

  lemma StepKeeps(s: State, step: Step)
    requires Inv(s) && Enabled(s, step)
    ensures Inv(Next(s, step))
  {
    match step
    case Arrive(caller) => ArriveKeeps(s, caller);
    case TakeGroup(at) => TakeKeeps(s, at);
    case Commit(at, answered) => CommitKeeps(s, at, answered);
    case Check(at) => CheckKeeps(s, at);
    case Pass(at) => PassKeeps(s, at);
    case Receive(caller) => ReceiveKeeps(s, caller);
  }

  // ---- Every run. ----

  predicate CanRun(s: State, steps: seq<Step>)
    decreases |steps|
  {
    steps == [] || (Enabled(s, steps[0]) && CanRun(Next(s, steps[0]), steps[1..]))
  }

  function Run(s: State, steps: seq<Step>): State
    requires CanRun(s, steps)
    decreases |steps|
  {
    if steps == [] then s else Run(Next(s, steps[0]), steps[1..])
  }

  lemma {:induction false} RunKeeps(s: State, steps: seq<Step>)
    requires Inv(s) && CanRun(s, steps)
    ensures Inv(Run(s, steps))
    decreases |steps|
  {
    if steps != [] {
      StepKeeps(s, steps[0]);
      RunKeeps(Next(s, steps[0]), steps[1..]);
    }
  }

  /** In every run one caller leads at most; whenever a write waits one leads, or the first
      waiting was told to; a leader never finds nothing waiting; and no write is answered twice. */
  lemma LeadSafe(steps: seq<Step>)
    requires CanRun(IDLE, steps)
    ensures var s := Run(IDLE, steps);
            && |s.leaders| + |s.leads| <= 1
            && (s.writes != [] ==> |s.leaders| + |s.leads| == 1)
            && (s.leads != [] ==> s.writes != [] && s.leads[0] == s.writes[0])
            && (forall leader | leader in s.leaders && leader.stage.Ready? :: leader.caller in s.writes)
            && (forall caller :: multiset(s.returned)[caller] <= 1)
            && (forall caller | caller in s.returned :: caller in s.arrived)
  {
    RunKeeps(IDLE, steps);
    var s := Run(IDLE, steps);
    hide Run, CanRun;
    forall caller ensures multiset(s.returned)[caller] <= 1 && (caller in s.returned ==> caller in s.arrived) {
      Where(s, caller);
    }
  }

  // ---- A fixed set of writes drains. ----

  function StageWork(stage: Stage): nat {
    match stage
    case Ready => 1
    case Deciding(group) => 3 + 4 * |group|
    case Checking => 2
    case Passing(_) => 3
  }

  function LeadersWork(leaders: seq<Leader>): nat {
    if leaders == [] then 0 else StageWork(leaders[0].stage) + LeadersWork(leaders[1..])
  }

  /** What is left to do for those that arrived. */
  function Work(s: State): nat {
    8 * |s.writes| + LeadersWork(s.leaders) + 2 * |s.answers| + 2 * |s.leads|
  }

  lemma SentSize(group: seq<nat>, answered: nat)
    ensures |Sent(group, answered)| <= |group|
  {
    SentAll(group, answered);
    assert |Sent(group, answered)| == |Sent(group, answered).Keys|;
    ElementsAtMost(group);
  }

  lemma {:induction false} ElementsAtMost(group: seq<nat>)
    ensures |Elements(group)| <= |group|
  {
    if group != [] {
      ElementsAtMost(group[1..]);
      assert group == [group[0]] + group[1..];
      assert Elements(group) == Elements(group[1..]) + {group[0]};
    }
  }

  lemma MergedSize(a: map<nat, bool>, b: map<nat, bool>)
    ensures |a + b| <= |a| + |b|
  {
    assert (a + b).Keys == a.Keys + b.Keys;
    assert |a.Keys| == |a| && |b.Keys| == |b| && |(a + b).Keys| == |a + b|;
  }

  lemma RemovedSize(a: map<nat, bool>, one: nat)
    requires one in a
    ensures |a - {one}| == |a| - 1
  {
    assert (a - {one}).Keys == a.Keys - {one};
    assert |(a - {one}).Keys| == |a - {one}| && |a.Keys| == |a|;
  }

  lemma OneLeader(leaders: seq<Leader>)
    ensures leaders == [] ==> LeadersWork(leaders) == 0
    ensures |leaders| == 1 ==> LeadersWork(leaders) == StageWork(leaders[0].stage)
  {
  }

  lemma LeaderWorks(s: State, step: Step)
    requires Inv(s) && Enabled(s, step) && (step.TakeGroup? || step.Commit? || step.Check? || step.Pass?)
    ensures Work(Next(s, step)) < Work(s)
  {
    hide Everywhere, OthersWait, Sent, Minus, LeadersWork;
    var t := Next(s, step);
    OneLeader(s.leaders);
    OneLeader(t.leaders);
    match step {
      case TakeGroup(at) => TakeKeeps(s, at);
      case Commit(at, answered) =>
        var group := s.leaders[0].stage.group;
        SentSize(group, answered);
        MergedSize(s.answers, Sent(group, answered));
      case Check(at) =>
        MinusLess(s.leads, s.leaders[0].caller);
        if s.leaders[0].caller in s.answers {
          RemovedSize(s.answers, s.leaders[0].caller);
        }
      case _ =>
    }
  }

  /** Every step but an arrival leaves less to do. */
  lemma StepWorks(s: State, step: Step)
    requires Inv(s) && Enabled(s, step) && !step.Arrive?
    ensures Work(Next(s, step)) < Work(s)
  {
    hide Everywhere, OthersWait, OwnWrite, Sent, Minus, LeadersWork;
    if step.Receive? {
      var t := Next(s, step);
      OneLeader(s.leaders);
      OneLeader(t.leaders);
      MinusLess(s.leads, step.caller);
      if step.caller in s.answers {
        RemovedSize(s.answers, step.caller);
      } else {
        assert s.leaders == [];
      }
    } else {
      LeaderWorks(s, step);
    }
  }

  /** While a caller waits for its answer, a caller other than one arriving can go on. */
  lemma SomeStep(s: State) returns (step: Step)
    requires Inv(s) && exists caller :: caller in s.arrived && caller !in s.returned
    ensures !step.Arrive? && Enabled(s, step)
  {
    if s.leaders != [] {
      match s.leaders[0].stage
      case Ready => step := TakeGroup(0);
      case Deciding(_) => step := Commit(0, 0);
      case Checking => step := Check(0);
      case Passing(_) => step := Pass(0);
    } else if s.leads != [] {
      step := Receive(s.leads[0]);
    } else {
      var caller :| caller in s.arrived && caller !in s.returned;
      Where(s, caller);
      step := Receive(caller);
    }
  }

  /** No caller can go on but one arriving. */
  ghost predicate Stuck(s: State) {
    forall step: Step | !step.Arrive? :: !Enabled(s, step)
  }

  lemma AllAnswered(s: State, caller: nat)
    requires Inv(s) && Stuck(s) && caller in s.arrived
    ensures multiset(s.returned)[caller] == 1
  {
    if caller !in s.returned {
      var step := SomeStep(s);
      assert false;
    }
    Where(s, caller);
  }

  /** However the callers go on, those that arrived are all answered once no more can: there is
      no run longer than the work there was, and at the end of each every one of them has its
      answer, once. */
  lemma {:induction false} Drains(s: State, steps: seq<Step>)
    requires Inv(s) && CanRun(s, steps) && forall step | step in steps :: !step.Arrive?
    ensures |steps| <= Work(s)
    ensures Stuck(Run(s, steps)) ==>
              forall caller | caller in s.arrived :: multiset(Run(s, steps).returned)[caller] == 1
    decreases |steps|
  {
    hide Inv, Stuck, Work, Enabled, Everywhere;
    if steps == [] {
      if Stuck(s) {
        forall caller | caller in s.arrived ensures multiset(s.returned)[caller] == 1 {
          AllAnswered(s, caller);
        }
      }
    } else {
      assert steps[0] in steps;
      StepKeeps(s, steps[0]);
      StepWorks(s, steps[0]);
      SameArrived(s, steps[0]);
      Drains(Next(s, steps[0]), steps[1..]);
    }
  }

  lemma SameArrived(s: State, step: Step)
    requires Enabled(s, step) && !step.Arrive?
    ensures Next(s, step).arrived == s.arrived
  {
  }

  // ---- What each is answered. ----

  /** At step `k` of the run its batch answered it as decided, and did not fail before. */
  ghost predicate DecidedAt(steps: seq<Step>, k: nat, caller: nat) {
    && k < |steps| && steps[k].Commit? && CanRun(IDLE, steps[..k])
    && InPart(Run(IDLE, steps[..k]), steps[k], caller)
  }

  /** It is among the first of the batch, as many as were answered. */
  predicate InPart(s: State, step: Step, caller: nat)
    requires step.Commit?
  {
    && step.at < |s.leaders| && s.leaders[step.at].stage.Deciding?
    && var group := s.leaders[step.at].stage.group;
       exists n: nat :: n < step.answered && n < |group| && group[n] == caller
  }

  ghost predicate Decided(steps: seq<Step>, caller: nat) {
    exists k: nat :: DecidedAt(steps, k, caller)
  }

  predicate InBatch(s: State, caller: nat) {
    s.leaders != [] && s.leaders[0].stage.Deciding? && caller in s.leaders[0].stage.group
  }

  /** What was sent to each, and what a leader goes with, is whether its batch decided it; nothing
      not yet decided was. */
  ghost predicate ToldRight(s: State, steps: seq<Step>) {
    && (forall caller | caller in s.answers :: s.answers[caller] <==> Decided(steps, caller))
    && (s.leaders != [] && s.leaders[0].stage.Passing? ==> (s.leaders[0].stage.ok <==> Decided(steps, s.leaders[0].caller)))
    && (forall caller | caller in s.writes || InBatch(s, caller) || caller !in s.arrived :: !Decided(steps, caller))
  }

  lemma {:induction false} RunLast(s: State, steps: seq<Step>)
    requires CanRun(s, steps) && steps != []
    ensures var before := steps[..|steps| - 1];
            && CanRun(s, before) && Enabled(Run(s, before), steps[|steps| - 1])
            && Run(s, steps) == Next(Run(s, before), steps[|steps| - 1])
    decreases |steps|
  {
    if |steps| > 1 {
      RunLast(Next(s, steps[0]), steps[1..]);
      assert steps[..|steps| - 1][1..] == steps[1..][..|steps| - 2];
    } else {
      assert steps[..0] == [];
    }
  }

  lemma DecidedLast(steps: seq<Step>, caller: nat)
    requires CanRun(IDLE, steps) && steps != []
    ensures var before, last := steps[..|steps| - 1], steps[|steps| - 1];
            && CanRun(IDLE, before)
            && (Decided(steps, caller) <==>
                  Decided(before, caller) || (last.Commit? && InPart(Run(IDLE, before), last, caller)))
  {
    RunLast(IDLE, steps);
    var n := |steps| - 1;
    var before := steps[..n];
    if k: nat :| DecidedAt(steps, k, caller) {
      if k < n {
        assert before[..k] == steps[..k] && before[k] == steps[k];
        assert DecidedAt(before, k, caller);
      }
    }
    if k: nat :| DecidedAt(before, k, caller) {
      assert before[..k] == steps[..k] && before[k] == steps[k];
      assert DecidedAt(steps, k, caller);
    }
    if steps[n].Commit? && InPart(Run(IDLE, before), steps[n], caller) {
      assert DecidedAt(steps, n, caller);
    }
  }

  lemma SentIs(group: seq<nat>, answered: nat, caller: nat)
    requires caller in group
    ensures caller in Sent(group, answered)
    ensures Sent(group, answered)[caller] <==> exists n: nat :: n < answered && n < |group| && group[n] == caller
  {
  }

  lemma CommitTells(s: State, before: seq<Step>, step: Step, after: seq<Step>)
    requires Inv(s) && Enabled(s, step) && step.Commit? && ToldRight(s, before)
    requires forall caller :: Decided(after, caller) <==> Decided(before, caller) || InPart(s, step, caller)
    ensures ToldRight(Next(s, step), after)
  {
    hide Decided, Everywhere;
    var t := Next(s, step);
    assert step.at == 0 && |s.leaders| == 1;
    var group := s.leaders[0].stage.group;
    forall caller | caller in t.answers ensures t.answers[caller] <==> Decided(after, caller) {
      if caller in group {
        SentIs(group, step.answered, caller);
      } else {
        SentAll(group, step.answered);
        assert !InPart(s, step, caller);
      }
    }
    forall caller | caller in t.writes || caller !in t.arrived ensures !Decided(after, caller) {
      if InBatch(s, caller) {
        GroupWaitsNot(s, caller);
      }
    }
  }

  lemma ElseTells(s: State, before: seq<Step>, step: Step, after: seq<Step>)
    requires Inv(s) && Enabled(s, step) && !step.Commit? && ToldRight(s, before)
    requires forall caller :: Decided(after, caller) <==> Decided(before, caller)
    ensures ToldRight(Next(s, step), after)
  {
    hide Decided, Everywhere, OwnWrite, OthersWait, Minus;
    assert |s.leaders| <= 1;
    if step.TakeGroup? {
      TakeTells(s, before, step.at, after);
    } else if step.Arrive? {
      NotThere(s, step.caller);
    }
  }

  lemma TakeTells(s: State, before: seq<Step>, at: nat, after: seq<Step>)
    requires Inv(s) && Enabled(s, TakeGroup(at)) && ToldRight(s, before)
    requires forall caller :: Decided(after, caller) <==> Decided(before, caller)
    ensures ToldRight(Next(s, TakeGroup(at)), after)
  {
    hide Decided, Everywhere, OwnWrite, OthersWait;
    assert |s.leaders| == 1 && at == 0;
    var t := Next(s, TakeGroup(at));
    forall caller | caller in t.writes || InBatch(t, caller) ensures caller in s.writes {
    }
  }

  lemma GroupWaitsNot(s: State, caller: nat)
    requires Inv(s) && InBatch(s, caller)
    ensures caller !in s.writes && caller in s.arrived
  {
    Where(s, caller);
    InHandIs(s);
    assert caller in multiset(s.leaders[0].stage.group);
  }

  /** In every run what each caller is answered, and what a leader goes with, is that its write was
      decided where its batch answered it before it could fail, and that it failed where not. */
  lemma {:induction false} ToldAsDecided(steps: seq<Step>)
    requires CanRun(IDLE, steps)
    ensures ToldRight(Run(IDLE, steps), steps)
    decreases |steps|
  {
    hide Inv, ToldRight, Decided, Enabled, Next;
    NoneDecided();
    if steps != [] {
      var before, last := steps[..|steps| - 1], steps[|steps| - 1];
      RunLast(IDLE, steps);
      ToldAsDecided(before);
      RunKeeps(IDLE, before);
      forall caller
        ensures Decided(steps, caller)
           <==> Decided(before, caller) || (last.Commit? && InPart(Run(IDLE, before), last, caller))
      {
        DecidedLast(steps, caller);
      }
      if last.Commit? {
        CommitTells(Run(IDLE, before), before, last, steps);
      } else {
        ElseTells(Run(IDLE, before), before, last, steps);
      }
    }
  }

  lemma NoneDecided()
    ensures Inv(IDLE) && ToldRight(IDLE, [])
  {
  }

  /** A leader takes the writes that have waited longest, in the order they arrived: all there are,
      or as many as a batch holds. */
  lemma TakesLongestWaiting(s: State, at: nat)
    requires Inv(s) && Enabled(s, TakeGroup(at))
    ensures var t := Next(s, TakeGroup(at));
            && |t.leaders| == 1 && t.leaders[0].stage.Deciding?
            && t.leaders[0].stage.group + t.writes == s.writes
            && |t.leaders[0].stage.group| == (if |s.writes| < 1024 then |s.writes| else 1024)
  {
    TakeKeeps(s, at);
  }
}
