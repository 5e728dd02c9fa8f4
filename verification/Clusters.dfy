/** Storage nodes of one cluster, each following a primary, copied whole from one, promoted, gone
    and back, in any order (`standby.rs`, `standby/finding.rs`, `standby/follow.rs`,
    `standby/ship.rs`): the steps, and what every one of them keeps. */
module Clusters {
  import opened Wrappers
  import opened Copies
  import opened Bases
  import opened Standing

  const DATABASES: nat := 3

  /** A whole copy under way: the databases copied, the one being scanned, and up to where. */
  datatype Whole = Whole(history: nat, done: seq<Base>, now: Base, before: Key)

  /** A standby's connection to its primary, of the term it was made in: what each database was
      handed over it, taken or not, or the whole copy it brings. */
  datatype Link =
    | Asking
    | Following(term: nat, sent: seq<seq<Changes>>)
    | Copying(term: nat, whole: Whole)

  datatype Role = Finding | Primary(term: nat) | Standby(primary: nat, link: Link)

  /** `kept`: the epoch its runtime database keeps; `history` is 0 where it follows none. */
  datatype Node = Node(role: Role, epoch: nat, kept: nat, history: nat, copying: bool, bases: seq<Base>)

  /** What each history's numbers name: its databases as it began, and the writes since of the
      last that was its primary. */
  datatype Line = Line(start: Db, writes: seq<Changes>)

  datatype Cluster = Cluster(nodes: seq<Node>, terms: nat, lines: map<nat, seq<Line>>)

  /** Storage nodes just started, whatever each holds, none of a history. */
  predicate Fresh(c: Cluster) {
    && c.terms == 0 && c.lines == map[]
    && forall i | 0 <= i < |c.nodes| ::
         var n := c.nodes[i];
         n.role.Finding? && n.history == 0 && |n.bases| == DATABASES
         && forall d | 0 <= d < DATABASES :: n.bases[d] == Began(n.bases[d].copied)
  }

  datatype Event =
    | Write(i: nat, d: nat, batch: Changes)
    | Sync(i: nat)
    | LetGo(i: nat, d: nat, to: nat)           // the oldest writes kept for standbys
    | Finds(i: nat, p: nat)                    // a primary that answered taken up
    | FollowOn(i: nat)
    | StartWhole(i: nat)
    | TakePage(i: nat, to: Key)
    | EndBase(i: nat)                          // a database copied; with the last, the copy whole
    | Ship(i: nat, d: nat, to: nat)
    | TakeCopy(i: nat, d: nat)
    | Lose(i: nat)
    | Restart(i: nat, back: seq<nat>)
    | StepDown(i: nat)
    | Promote(i: nat, answered: seq<nat>, named: nat)

  // ---- What a node says, and who is promoted. ----

  function SaysOf(n: Node): Says {
    Says(n.role.Primary?, n.epoch, n.history, seq(|n.bases|, d requires 0 <= d < |n.bases| => |n.bases[d].writes|), n.copying)
  }

  function Answer(c: Cluster, i: nat): Answered
    requires i < |c.nodes|
  {
    Answered(i, SaysOf(c.nodes[i]))
  }

  predicate AreNodes(c: Cluster, answered: seq<nat>) {
    && (forall a | 0 <= a < |answered| :: answered[a] < |c.nodes|)
    && forall a, b | 0 <= a < b < |answered| :: answered[a] != answered[b]
  }

  function Answers(c: Cluster, answered: seq<nat>): seq<Answered>
    requires AreNodes(c, answered)
  {
    seq(|answered|, a requires 0 <= a < |answered| => Answer(c, answered[a]))
  }

  function Latest(c: Cluster, answered: seq<nat>): nat
    requires AreNodes(c, answered)
  {
    if answered == [] then 0
    else
      var rest := Latest(c, answered[1..]);
      if c.nodes[answered[0]].epoch > rest then c.nodes[answered[0]].epoch else rest
  }

  // ---- The steps. ----

  predicate IsAt(c: Cluster, i: nat, d: nat) {
    i < |c.nodes| && |c.nodes[i].bases| == DATABASES && d < DATABASES
  }

  /** Node `i`'s connection is to the primary it was made to, which is one still. */
  predicate Linked(c: Cluster, i: nat) {
    && i < |c.nodes| && c.nodes[i].role.Standby? && c.nodes[i].role.primary < |c.nodes|
    && !c.nodes[i].role.link.Asking?
    && c.nodes[c.nodes[i].role.primary].role == Primary(c.nodes[i].role.link.term)
  }

  function PrimaryOf(c: Cluster, i: nat): Node
    requires i < |c.nodes| && c.nodes[i].role.Standby? && c.nodes[i].role.primary < |c.nodes|
  {
    c.nodes[c.nodes[i].role.primary]
  }

  /** A standby of `n`'s history and numbers can take `p`'s writes on from there: what
      `Copies.Numbered.Follows` answers. */
  predicate CanFollow(p: Node, n: Node) {
    && n.history == p.history && |n.bases| == |p.bases|
    && forall d | 0 <= d < |n.bases| :: p.bases[d].first <= |n.bases[d].writes| <= |p.bases[d].writes|
  }

  predicate CanAsk(c: Cluster, i: nat) {
    && i < |c.nodes| && c.nodes[i].role.Standby? && c.nodes[i].role.primary < |c.nodes| && c.nodes[i].role.link.Asking?
    && PrimaryOf(c, i).role.Primary? && c.nodes[i].epoch <= PrimaryOf(c, i).epoch
  }

  ghost predicate Enabled(c: Cluster, event: Event) {
    match event
    case Write(i, d, _) => IsAt(c, i, d) && c.nodes[i].role.Primary?
    case Sync(i) => i < |c.nodes|
    case LetGo(i, d, to) => IsAt(c, i, d) && c.nodes[i].bases[d].first <= to <= |c.nodes[i].bases[d].writes|
    case Finds(i, p) =>
      && i < |c.nodes| && p < |c.nodes| && i != p && c.nodes[i].role.Finding?
      && c.nodes[p].role.Primary? && c.nodes[p].epoch >= c.nodes[i].epoch
    case FollowOn(i) => CanAsk(c, i) && CanFollow(PrimaryOf(c, i), c.nodes[i])
    case StartWhole(i) => CanAsk(c, i) && !CanFollow(PrimaryOf(c, i), c.nodes[i])
    case TakePage(i, to) => Linked(c, i) && c.nodes[i].role.link.Copying? && c.nodes[i].role.link.whole.before <= to
    case EndBase(i) =>
      && Linked(c, i) && c.nodes[i].role.link.Copying?
      && var w := c.nodes[i].role.link.whole;
      && |w.done| < |PrimaryOf(c, i).bases| && var pb := PrimaryOf(c, i).bases[|w.done|];
      pb.from <= |pb.writes| && forall k: Key | k in Content(pb) :: k < w.before
    case Ship(i, d, to) =>
      && Linked(c, i) && c.nodes[i].role.link.Following? && d < |c.nodes[i].role.link.sent|
      && d < |PrimaryOf(c, i).bases|
      && PrimaryOf(c, i).bases[d].first <= |c.nodes[i].role.link.sent[d]| <= to <= |PrimaryOf(c, i).bases[d].writes|
    case TakeCopy(i, d) =>
      && IsAt(c, i, d) && c.nodes[i].role.Standby? && c.nodes[i].role.link.Following?
      && d < |c.nodes[i].role.link.sent| && |c.nodes[i].bases[d].writes| < |c.nodes[i].role.link.sent[d]|
    case Lose(i) => i < |c.nodes| && c.nodes[i].role.Standby?
    case Restart(i, back) =>
      && i < |c.nodes| && |back| == |c.nodes[i].bases|
      && forall d | 0 <= d < |back| :: c.nodes[i].bases[d].synced <= back[d] <= |c.nodes[i].bases[d].writes|
    case StepDown(i) =>
      && i < |c.nodes| && c.nodes[i].role.Primary?
      && exists j | 0 <= j < |c.nodes| :: c.nodes[j].role.Primary? && c.nodes[j].epoch > c.nodes[i].epoch
    case Promote(i, answered, named) =>
      && i < |c.nodes| && c.nodes[i].role.Finding? && !c.nodes[i].copying
      && AreNodes(c, answered) && IsBest(Answers(c, answered), Answer(c, i))
      && (forall a | 0 <= a < |answered| && c.nodes[answered[a]].role.Primary? :: c.nodes[answered[a]].epoch < c.nodes[i].epoch)
      && (c.nodes[i].history == 0 ==> named != 0 && named !in c.lines)
  }

  function Max(a: nat, b: nat): nat {
    if a < b then b else a
  }

  /** The epoch a node keeps once it heard one of `epoch`: written where it is later. */
  function KeptEpoch(n: Node, kept: nat, epoch: nat): nat {
    if epoch > n.epoch then epoch else kept
  }

  /** A database as a whole copy of it begins: what follows its primary's writes so far. */
  function CopyOf(p: Base): Base
    requires p.from <= |p.writes|
  {
    Base(p.writes, |p.writes|, map[], Content(p), [], |p.writes|, |p.writes|, Some(|p.writes|))
  }

  function Cut(b: Base, n: nat): Base
    requires b.from <= n <= |b.writes|
  {
    b.(writes := b.writes[..n], synced := n, first := n)
  }

  /** A database read back after a crash kept its writes up to `n`: on in its history where its
      position stands, else with none. */
  function Reopened(b: Base, n: nat, positioned: bool): Base
    requires b.from <= n <= |b.writes|
  {
    if positioned then Cut(b, n) else Began(ContentAt(b, n))
  }

  predicate Positioned(bases: seq<Base>, back: seq<nat>)
    requires |bases| == |back|
  {
    forall d | 0 <= d < |bases| :: bases[d].position.Some? && bases[d].position.value <= back[d]
  }

  function Restarted(n: Node, back: seq<nat>): Node
    requires |n.bases| == |back| && forall d | 0 <= d < |back| :: n.bases[d].from <= back[d] <= |n.bases[d].writes|
  {
    var positioned := n.history != 0 && Positioned(n.bases, back);
    Node(Finding, n.kept, n.kept, if positioned then n.history else 0, n.copying,
         seq(|back|, d requires 0 <= d < |back| => Reopened(n.bases[d], back[d], positioned)))
  }

  function Synced(b: Base): Base {
    b.(synced := |b.writes|)
  }

  function WritesOf(bases: seq<Base>): seq<seq<Changes>> {
    seq(|bases|, d requires 0 <= d < |bases| => bases[d].writes)
  }

  /** What a connection that follows on was handed before it: all the standby has. */
  function SentFrom(p: Node, n: Node): seq<seq<Changes>>
    requires CanFollow(p, n)
  {
    seq(|n.bases|, d requires 0 <= d < |n.bases| => p.bases[d].writes[..|n.bases[d].writes|])
  }

  function Taken(b: Base, batch: Changes): Base {
    b.(writes := b.writes + [batch], position := if b.position.Some? then b.position else Some(|b.writes| + 1))
  }

  function Scanning(w: Whole, p: Base, to: Key): Whole
    requires p.from <= |p.writes| && w.now.from <= |p.writes|
  {
    w.(now := w.now.(copied := w.now.copied + Page(Content(p), w.before, to), scan := p.writes[w.now.from..]), before := to)
  }

  /** The standby once the database being scanned is copied. */
  function Ended(n: Node, p: Node): Node
    requires n.role.Standby? && n.role.link.Copying? && |p.bases| == DATABASES && |n.role.link.whole.done| < DATABASES
    requires forall d | 0 <= d < DATABASES :: p.bases[d].from <= |p.bases[d].writes|
    requires n.role.link.whole.now.from <= |p.bases[|n.role.link.whole.done|].writes|
  {
    var w, term := n.role.link.whole, n.role.link.term;
    var done := w.done + [w.now.(scan := p.bases[|w.done|].writes[w.now.from..])];
    if |done| < DATABASES then
      n.(role := Standby(n.role.primary, Copying(term, Whole(w.history, done, CopyOf(p.bases[|done|]), 0))))
    else
      n.(role := Standby(n.role.primary, Following(term, WritesOf(done))), history := w.history, copying := false, bases := done)
  }

  function StartedWhole(n: Node, p: Node): Node
    requires n.role.Standby? && p.role.Primary? && |p.bases| == DATABASES && p.bases[0].from <= |p.bases[0].writes|
  {
    Node(Standby(n.role.primary, Copying(p.role.term, Whole(p.history, [], CopyOf(p.bases[0]), 0))),
         Max(n.epoch, p.epoch), KeptEpoch(n, 0, p.epoch), 0, true, seq(DATABASES, _ => Began(map[])))
  }

  function Unpositioned(bases: seq<Base>): seq<Base> {
    seq(|bases|, d requires 0 <= d < |bases| => bases[d].(position := None))
  }

  function Promoted(c: Cluster, i: nat, answered: seq<nat>, named: nat): Node
    requires i < |c.nodes| && AreNodes(c, answered)
  {
    var n := c.nodes[i];
    var epoch := Max(Latest(c, answered), n.epoch) + 1;
    Node(Primary(c.terms + 1), epoch, epoch, if n.history == 0 then named else n.history, false, Unpositioned(n.bases))
  }

  // ---- What holds of each node, and of each standby with its primary. ----

  ghost predicate BaseOk(b: Base) {
    b.from <= b.synced <= |b.writes| && Fuzzy(b)
  }

  ghost predicate NodeOk(n: Node) {
    && |n.bases| == DATABASES
    && (forall d | 0 <= d < DATABASES :: BaseOk(n.bases[d]))
    && (n.history == 0 ==> forall d | 0 <= d < DATABASES :: n.bases[d].writes == [] && n.bases[d].scan == [])
    && match n.role
       case Finding => true
       case Primary(_) => n.history != 0
       case Standby(_, Asking) => true
       case Standby(_, Following(_, sent)) =>
         n.history != 0 && |sent| == DATABASES && forall d | 0 <= d < DATABASES :: |n.bases[d].writes| <= |sent[d]|
       case Standby(_, Copying(_, w)) => n.history == 0 && |w.done| < DATABASES && n.copying
  }

  /** A database copied, or being copied, from `p`. */
  ghost predicate CopiedFrom(b: Base, p: Base) {
    && b.from == |b.writes| == b.synced && b.writes <= p.writes && p.from <= b.from
    && b.origin == ContentAt(p, b.from) && b.scan <= p.writes[b.from..]
  }

  /** While its primary is the one it was made to, a connection brings that one's writes. */
  ghost predicate LinkOk(n: Node, p: Node) {
    n.role.Standby? ==>
      match n.role.link
      case Asking => true
      case Following(term, sent) =>
        p.role == Primary(term) ==>
          p.history == n.history && |sent| == DATABASES == |p.bases| && forall d | 0 <= d < DATABASES :: sent[d] <= p.bases[d].writes
      case Copying(term, w) =>
        p.role == Primary(term) ==>
          && p.history == w.history && |w.done| < DATABASES == |p.bases|
          && (forall d | 0 <= d < |w.done| :: CopiedFrom(w.done[d], p.bases[d]) && Fuzzy(w.done[d]))
          && CopiedFrom(w.now, p.bases[|w.done|]) && Scanned(w.now, w.before)
  }

  predicate TermsOk(n: Node, terms: nat) {
    match n.role
    case Primary(term) => term <= terms
    case Standby(_, Following(term, _)) => term <= terms
    case Standby(_, Copying(term, _)) => term <= terms
    case _ => true
  }

  ghost predicate Inv(c: Cluster) {
    && (forall i | 0 <= i < |c.nodes| :: NodeOk(c.nodes[i]) && TermsOk(c.nodes[i], c.terms))
    && (forall i | 0 <= i < |c.nodes| && c.nodes[i].role.Standby? ::
          c.nodes[i].role.primary < |c.nodes| && c.nodes[i].role.primary != i && LinkOk(c.nodes[i], PrimaryOf(c, i)))
    && (forall i | 0 <= i < |c.nodes| && c.nodes[i].history != 0 :: c.nodes[i].history in c.lines)
    && (forall h | h in c.lines :: |c.lines[h]| == DATABASES)
  }

  /** What a history's numbers name once node `n` of it wrote. */
  function LinesWith(lines: map<nat, seq<Line>>, n: Node): map<nat, seq<Line>> {
    if n.history in lines && |lines[n.history]| == |n.bases| then
      lines[n.history := seq(|n.bases|, d requires 0 <= d < |n.bases| => Line(lines[n.history][d].start, n.bases[d].writes))]
    else
      lines[n.history := seq(|n.bases|, d requires 0 <= d < |n.bases| => Line(n.bases[d].copied, n.bases[d].writes))]
  }

  /** The node an event changes, and how: each changes one. */
  function NodeAfter(c: Cluster, event: Event): Node
    requires Inv(c) && Enabled(c, event)
  {
    var n := c.nodes[event.i];
    match event
    case Write(i, d, batch) => n.(bases := n.bases[d := n.bases[d].(writes := n.bases[d].writes + [batch])])
    case Sync(i) => n.(bases := seq(|n.bases|, d requires 0 <= d < |n.bases| => Synced(n.bases[d])))
    case LetGo(i, d, to) => n.(bases := n.bases[d := n.bases[d].(first := to)])
    case Finds(i, p) =>
      n.(role := Standby(p, Asking), epoch := Max(n.epoch, c.nodes[p].epoch), kept := KeptEpoch(n, n.kept, c.nodes[p].epoch))
    case FollowOn(i) =>
      var p := PrimaryOf(c, i);
      n.(role := Standby(n.role.primary, Following(p.role.term, SentFrom(p, n))),
         epoch := Max(n.epoch, p.epoch), kept := KeptEpoch(n, n.kept, p.epoch))
    case StartWhole(i) => assert NodeOk(PrimaryOf(c, i)); StartedWhole(n, PrimaryOf(c, i))
    case TakePage(i, to) =>
      var w := n.role.link.whole;
      assert LinkOk(n, PrimaryOf(c, i));
      n.(role := n.role.(link := Copying(n.role.link.term, Scanning(w, PrimaryOf(c, i).bases[|w.done|], to))))
    case EndBase(i) => assert NodeOk(PrimaryOf(c, i)) && LinkOk(n, PrimaryOf(c, i)); Ended(n, PrimaryOf(c, i))
    case Ship(i, d, to) =>
      n.(role := n.role.(link := n.role.link.(sent := n.role.link.sent[d := PrimaryOf(c, i).bases[d].writes[..to]])))
    case TakeCopy(i, d) =>
      n.(bases := n.bases[d := Taken(n.bases[d], n.role.link.sent[d][|n.bases[d].writes|])])
    case Lose(i) => n.(role := Finding)
    case Restart(i, back) =>
      assert NodeOk(n);
      assert forall d | 0 <= d < |back| :: BaseOk(n.bases[d]);
      Restarted(n, back)
    case StepDown(i) => n.(role := Finding)
    case Promote(i, answered, named) => Promoted(c, i, answered, named)
  }

  function Next(c: Cluster, event: Event): Cluster
    requires Inv(c) && Enabled(c, event)
  {
    var n := NodeAfter(c, event);
    Cluster(c.nodes[event.i := n],
            if event.Promote? then c.terms + 1 else c.terms,
            if event.Promote? || event.Write? then LinesWith(c.lines, n) else c.lines)
  }
}
