/** Which Storage node is promoted where no primary answers (`standby/finding.rs`,
    `standby/shipped.rs`). */
module Standing {
  import opened Wrappers

  /** What a Storage node says it is. `next`: the number of the next write of each database. */
  datatype Says = Says(primary: bool, epoch: nat, history: nat, next: seq<nat>, copying: bool)

  /** What one listed answered, at its place in the list. */
  datatype Answered = Answered(place: nat, says: Says)

  function Sum(next: seq<nat>): nat {
    if next == [] then 0 else next[0] + Sum(next[1..])
  }

  /** How many writes it holds of its history, all databases together. */
  function HoldsMany(says: Says): nat {
    Sum(says.next)
  }

  /** Of two, the one of the later epoch, then the one holding more, then the first listed. */
  predicate Better(a: Answered, b: Answered) {
    || a.says.epoch > b.says.epoch
    || (a.says.epoch == b.says.epoch
        && (HoldsMany(a.says) > HoldsMany(b.says) || (HoldsMany(a.says) == HoldsMany(b.says) && a.place < b.place)))
  }

  /** Each listed answered once. */
  predicate Distinct(answers: seq<Answered>) {
    forall i, j | 0 <= i < j < |answers| :: answers[i].place != answers[j].place
  }

  ghost predicate IsBest(answers: seq<Answered>, best: Answered) {
    && best in answers && !best.says.copying
    && forall other | other in answers && !other.says.copying && other != best :: Better(best, other)
  }

  /** The best of those that answered, none whose whole copy is under way. */
  method BestOf(answers: seq<Answered>) returns (best: Option<Answered>)
    requires Distinct(answers)
    ensures best.Some? ==> IsBest(answers, best.value)
    ensures best.None? ==> forall a | a in answers :: a.says.copying
  {
    best := None;
    for i := 0 to |answers|
      invariant best.Some? ==> IsBest(answers[..i], best.value)
      invariant best.None? ==> forall a | a in answers[..i] :: a.says.copying
    {
      assert answers[..i + 1] == answers[..i] + [answers[i]];
      var one := answers[i];
      if !one.says.copying {
        if best.None? {
          best := Some(one);
        } else {
          assert best.value.place != one.place;
          if !Better(best.value, one) {
            assert Better(one, best.value);
            forall other | other in answers[..i] && !other.says.copying && other != one ensures Better(one, other) {
              assert other == best.value || Better(best.value, other);
            }
            best := Some(one);
          }
        }
      }
    }
    assert answers[..|answers|] == answers;
  }

  /** Whether the node at `place` is the one promoted: the best of those that answered, at once
      where each listed before it answered, else once it heard no primary for long enough. */
  method Promotes(answers: seq<Answered>, place: nat, silent: bool) returns (promoted: bool)
    requires Distinct(answers)
    ensures promoted <==>
              && (exists me :: me in answers && me.place == place && IsBest(answers, me))
              && (silent || forall before | 0 <= before < place :: Listed(answers, before))
    ensures promoted ==>
              exists me :: me in answers && me.place == place && !me.says.copying
                && forall other | other in answers && !other.says.copying && other.place != place ::
                     || other.says.epoch < me.says.epoch
                     || (other.says.epoch == me.says.epoch && Sum(other.says.next) < Sum(me.says.next))
                     || (other.says.epoch == me.says.epoch && Sum(other.says.next) == Sum(me.says.next)
                         && place < other.place)
  {
    var best := BestOf(answers);
    if best.None? || best.value.place != place {
      if exists me :: me in answers && me.place == place && IsBest(answers, me) {
        var me :| me in answers && me.place == place && IsBest(answers, me);
        OneBest(answers, best.value, me);
      }
      return false;
    }
    assert best.value in answers && best.value.place == place && IsBest(answers, best.value);
    return silent || forall before | 0 <= before < place :: Listed(answers, before);
  }

  /** So of all that answered and are not being copied whole, none is of a later epoch than the one
      promoted, none of its epoch holds more, and of those that hold as much it is listed first. */
  lemma PromotedIsFirst(answers: seq<Answered>, me: Answered, other: Answered)
    requires IsBest(answers, me) && other in answers && !other.says.copying && other != me
    ensures me in answers && !me.says.copying && other.says.epoch <= me.says.epoch
    ensures other.says.epoch == me.says.epoch ==> Sum(other.says.next) <= Sum(me.says.next)
    ensures other.says.epoch == me.says.epoch && Sum(other.says.next) == Sum(me.says.next) ==> me.place < other.place
  {
    assert Better(me, other);
  }

  predicate Listed(answers: seq<Answered>, place: nat) {
    exists i | 0 <= i < |answers| :: answers[i].place == place
  }

  /** Of one set of answers one node is the best. */
  lemma OneBest(answers: seq<Answered>, one: Answered, other: Answered)
    requires IsBest(answers, one) && IsBest(answers, other)
    ensures one == other
  {
  }

  // ---- What the one promoted holds. ----

  predicate AtLeast(a: seq<nat>, b: seq<nat>) {
    |a| == |b| && forall d | 0 <= d < |a| :: b[d] <= a[d]
  }

  lemma {:induction false} SumAtLeast(a: seq<nat>, b: seq<nat>)
    requires AtLeast(a, b)
    ensures Sum(b) <= Sum(a) && (Sum(a) == Sum(b) ==> a == b)
  {
    if a != [] {
      assert forall d | 0 <= d < |a[1..]| :: b[1..][d] <= a[1..][d] by {
        forall d | 0 <= d < |a[1..]| ensures b[1..][d] <= a[1..][d] {
          assert b[d + 1] <= a[d + 1];
        }
      }
      SumAtLeast(a[1..], b[1..]);
      assert a == [a[0]] + a[1..] && b == [b[0]] + b[1..];
    }
  }
}
