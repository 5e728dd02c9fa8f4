/** A Work Process's turn (`instance.rs`): its Instances written only over the turn they were
    read at, its keys only where they are free, with its hand-on or not at all. */
module Turns {
  import opened Wrappers
  import opened Records
  import opened Queues
  import opened Steps
  import opened Operations
  import opened Shapes
  import opened Frames
  import opened Once
  import opened Repeats

  // ---- A turn's answer. ----

  /** A turn's hand-on took effect, with its Instances. */
  predicate TurnTook(ledger: Ledger, t: Turn, moment: Moment) {
    && TookEffect(ledger, t.handOn, moment)
    && Decide(ledger, Turning(t), moment).Ok?
    && Decide(ledger, Turning(t), moment).value.done == Yes(true)
  }

  /** What its repeat answers is whether its Instances still stand at the turns it was over:
      false once it moved one on, though it was done. */
  lemma TurnAnswers(ledger: Ledger, t: Turn, moment: Moment)
    requires Decide(ledger, Turning(t), moment).Ok?
    ensures Current(ledger.db, t).Ok?
    ensures Decide(ledger, Turning(t), moment).value.done
         == Yes(Current(ledger.db, t).value && Ours(ledger.db, t.handOn))
    ensures !Current(ledger.db, t).value ==> After(ledger, Turning(t), moment) == ledger
  {
    hide HandOnSteps, TurnSteps, InstancesStand, KeysFree;
    RunsNone(ledger.db);
  }

  lemma {:induction false} InstancesWritten(db: Db, writes: seq<InstanceWrite>, instance: Id)
    ensures RunSteps(db, InstanceSteps(writes)).Ok?
    ensures (exists w | w in writes :: w.record.instance == instance) ==>
              exists w | w in writes :: w.record.instance == instance
                && Read(RunSteps(db, InstanceSteps(writes)).value, InstanceAt(instance)) == Some(InstanceV(w.record))
    decreases |writes|
  {
    if writes != [] {
      var last := writes[|writes| - 1];
      var first := writes[..|writes| - 1];
      assert InstanceSteps(writes) == InstanceSteps(first) + [PutInstance(last.record)];
      InstancesWritten(db, first, instance);
      RunAppended(db, InstanceSteps(first), [PutInstance(last.record)]);
      var before := RunSteps(db, InstanceSteps(first)).value;
      assert [PutInstance(last.record)][1..] == [];
      assert RunSteps(db, InstanceSteps(writes)) == Ok(before[InstanceAt(last.record.instance) := InstanceV(last.record)]);
      if last.record.instance != instance && exists w | w in writes :: w.record.instance == instance {
        var w :| w in writes && w.record.instance == instance;
        assert w in first;
        var v :| v in first && v.record.instance == instance && Read(before, InstanceAt(instance)) == Some(InstanceV(v.record));
        assert v in writes;
      } else {
        assert last in writes;
      }
    }
  }

  /** What a turn's writes leave of an Instance it writes, and of a key it takes. */
  lemma TurnStepsWrote(db: Db, t: Turn, instance: Id)
    requires RunSteps(db, TurnSteps(t)).Ok? && exists w | w in t.instances :: w.record.instance == instance
    ensures exists w | w in t.instances :: w.record.instance == instance
              && Read(RunSteps(db, TurnSteps(t)).value, InstanceAt(instance)) == Some(InstanceV(w.record))
  {
    var rest := KeySteps(t.keys) + DropSteps(t.unkeyed);
    RunAppended(db, InstanceSteps(t.instances), rest);
    InstancesWritten(db, t.instances, instance);
    assert NoneWrites(rest, InstanceAt(instance));
    RunLeaves(RunSteps(db, InstanceSteps(t.instances)).value, rest, InstanceAt(instance));
  }

  lemma {:induction false} KeysWritten(db: Db, keys: seq<InstanceKey>, key: Id, owner: Id)
    requires exists k | k in keys :: k.key == key
    requires forall k | k in keys && k.key == key :: k.instance == owner
    ensures RunSteps(db, KeySteps(keys)).Ok? && OwnerOf(RunSteps(db, KeySteps(keys)).value, key) == Ok(Some(owner))
    decreases |keys|
  {
    var last, first := keys[|keys| - 1], keys[..|keys| - 1];
    assert KeySteps(keys) == KeySteps(first) + [PutKey(last)];
    KeysRun(db, first);
    RunAppended(db, KeySteps(first), [PutKey(last)]);
    var before := RunSteps(db, KeySteps(first)).value;
    assert [PutKey(last)][1..] == [];
    assert RunSteps(db, KeySteps(keys)) == Ok(before[InstanceKeyAt(last.key) := InstanceKeyV(last.instance)]);
    if last.key != key {
      var k :| k in keys && k.key == key;
      assert k in first;
      KeysWritten(db, first, key, owner);
    }
  }

  lemma {:induction false} KeysRun(db: Db, keys: seq<InstanceKey>)
    ensures RunSteps(db, KeySteps(keys)).Ok?
    decreases |keys|
  {
    if keys != [] {
      assert KeySteps(keys)[1..] == KeySteps(keys[1..]);
      KeysRun(db[InstanceKeyAt(keys[0].key) := InstanceKeyV(keys[0].instance)], keys[1..]);
    }
  }

  lemma {:induction false} DropsLeave(db: Db, keys: seq<InstanceKey>, key: Id, owner: Id)
    requires OwnerOf(db, key) == Ok(Some(owner)) && InstanceKey(key, owner) !in keys
    requires RunSteps(db, DropSteps(keys)).Ok?
    ensures OwnerOf(RunSteps(db, DropSteps(keys)).value, key) == Ok(Some(owner))
    decreases |keys|
  {
    if keys != [] {
      assert DropSteps(keys)[1..] == DropSteps(keys[1..]) && DropSteps(keys)[0] == DropKey(keys[0]);
      assert keys[0] in keys;
      DropsLeave(DoStep(db, DropKey(keys[0])).value, keys[1..], key, owner);
    }
  }

  lemma TurnStepsKeyed(db: Db, t: Turn, key: Id, owner: Id)
    requires RunSteps(db, TurnSteps(t)).Ok? && Keys(t, key, owner)
    ensures OwnerOf(RunSteps(db, TurnSteps(t)).value, key) == Ok(Some(owner))
  {
    var rest := KeySteps(t.keys) + DropSteps(t.unkeyed);
    RunAppended(db, InstanceSteps(t.instances), rest);
    var written := RunSteps(db, InstanceSteps(t.instances)).value;
    RunAppended(written, KeySteps(t.keys), DropSteps(t.unkeyed));
    KeysWritten(written, t.keys, key, owner);
    DropsLeave(RunSteps(written, KeySteps(t.keys)).value, t.unkeyed, key, owner);
  }

  lemma TurnRuns(ledger: Ledger, t: Turn, moment: Moment) returns (handed: Db)
    requires TurnTook(ledger, t, moment)
    ensures RunSteps(handed, TurnSteps(t)) == Ok(After(ledger, Turning(t), moment).db)
    ensures handed == After(ledger, HandingOn(t.handOn), moment).db
  {
    hide HandOnSteps, InstancesStand, KeysFree, TurnSteps, RunSteps;
    TurnAnswers(ledger, t, moment);
    var held := StoredOn(ledger.db, t.handOn.claim.journey).value.value.claim;
    var steps := HandOnSteps(t.handOn, held, moment.now);
    RunAppended(ledger.db, steps, TurnSteps(t));
    handed := RunSteps(ledger.db, steps).value;
  }

  // ---- Two turns of one Instance, and two first arrivals of one key. ----

  /** `rival` is over a turn of an Instance that `t` leaves at another. */
  predicate Rivals(t: Turn, rival: Turn) {
    exists v | v in rival.instances ::
      && (exists w | w in t.instances :: w.record.instance == v.record.instance)
      && (forall w | w in t.instances && w.record.instance == v.record.instance :: w.record.turns != v.over)
  }

  /** `t` takes `key` for `owner`, and does not let it go. */
  predicate Keys(t: Turn, key: Id, owner: Id) {
    && (exists k | k in t.keys :: k.key == key)
    && (forall k | k in t.keys && k.key == key :: k.instance == owner)
    && InstanceKey(key, owner) !in t.unkeyed
  }

  /** `rival` correlates a key that `t` took for another Instance. */
  ghost predicate RivalKeys(t: Turn, rival: Turn) {
    exists k, owner | k in rival.keys :: Keys(t, k.key, owner) && owner != k.instance
  }

  /** Where it is answered, it is no. */
  predicate IsNo(answer: Result<bool>) {
    answer.Ok? ==> !answer.value
  }

  lemma {:induction false} OneStandsNot(db: Db, writes: seq<InstanceWrite>, v: InstanceWrite)
    requires v in writes && InstanceTurns(db, v.record.instance).Ok? && InstanceTurns(db, v.record.instance).value != v.over
    ensures IsNo(InstancesStand(db, writes))
    decreases |writes|
  {
    if writes[0] != v {
      OneStandsNot(db, writes[1..], v);
    }
  }

  lemma {:induction false} OneNotFree(db: Db, keys: seq<InstanceKey>, k: InstanceKey)
    requires k in keys && OwnerOf(db, k.key).Ok? && OwnerOf(db, k.key).value.Some? && OwnerOf(db, k.key).value.value != k.instance
    ensures IsNo(KeysFree(db, keys))
    decreases |keys|
  {
    if keys[0] != k {
      OneNotFree(db, keys[1..], k);
    }
  }

  lemma RivalStandsNot(db: Db, t: Turn, rival: Turn)
    requires RunSteps(db, TurnSteps(t)).Ok? && Rivals(t, rival)
    ensures IsNo(InstancesStand(RunSteps(db, TurnSteps(t)).value, rival.instances))
  {
    var v :| v in rival.instances
      && (exists w | w in t.instances :: w.record.instance == v.record.instance)
      && (forall w | w in t.instances && w.record.instance == v.record.instance :: w.record.turns != v.over);
    TurnStepsWrote(db, t, v.record.instance);
    OneStandsNot(RunSteps(db, TurnSteps(t)).value, rival.instances, v);
  }

  lemma RivalNotFree(db: Db, t: Turn, rival: Turn)
    requires RunSteps(db, TurnSteps(t)).Ok? && RivalKeys(t, rival)
    ensures IsNo(KeysFree(RunSteps(db, TurnSteps(t)).value, rival.keys))
  {
    var k, owner :| k in rival.keys && Keys(t, k.key, owner) && owner != k.instance;
    TurnStepsKeyed(db, t, k.key, owner);
    OneNotFree(RunSteps(db, TurnSteps(t)).value, rival.keys, k);
  }

  lemma NotCurrent(db: Db, t: Turn)
    requires Typed(db) && (IsNo(InstancesStand(db, t.instances)) || IsNo(KeysFree(db, t.keys)))
    ensures Current(db, t).Ok? && !Current(db, t).value
  {
    CurrentTyped(db, t.instances, t.keys);
  }

  /** Of two turns of one Instance from one state, and of two that take one key for two
      Instances, never both write: once one is done the other is refused, nothing of it written. */
  lemma RivalTurnRefused(ledger: Ledger, t: Turn, moment: Moment, rival: Turn, again: Moment)
    requires Typed(ledger.db) && TurnTook(ledger, t, moment) && (Rivals(t, rival) || RivalKeys(t, rival))
    ensures var after := After(ledger, Turning(t), moment);
            Decide(after, Turning(rival), again) == Ok(Decision(Yes(false), after))
  {
    hide HandOnSteps, TurnSteps, InstancesStand, KeysFree, RunSteps, Rivals, RivalKeys, Typed;
    var handed := TurnRuns(ledger, t, moment);
    DecideTyped(ledger, Turning(t), moment);
    var after := After(ledger, Turning(t), moment);
    if Rivals(t, rival) {
      RivalStandsNot(handed, t, rival);
    } else {
      RivalNotFree(handed, t, rival);
    }
    NotCurrent(after.db, rival);
    DecideTyped(after, Turning(rival), again);
    TurnAnswers(after, rival, again);
  }

  // ---- A turn asked again. ----

  predicate Writes(writes: seq<InstanceWrite>, instance: Id) {
    exists w | w in writes :: w.record.instance == instance
  }

  /** What the last of a turn's writes of an Instance leaves. */
  function LastRecord(writes: seq<InstanceWrite>, instance: Id): InstanceRecord
    requires Writes(writes, instance)
  {
    var last := writes[|writes| - 1];
    if last.record.instance == instance then last.record
    else
      assert Writes(writes[..|writes| - 1], instance) by {
        var w :| w in writes && w.record.instance == instance;
        assert w in writes[..|writes| - 1];
      }
      LastRecord(writes[..|writes| - 1], instance)
  }

  predicate Takes(keys: seq<InstanceKey>, key: Id) {
    exists k | k in keys :: k.key == key
  }

  /** The Instance the last of a turn's writes of a key gives it. */
  function LastOwner(keys: seq<InstanceKey>, key: Id): Id
    requires Takes(keys, key)
  {
    var last := keys[|keys| - 1];
    if last.key == key then last.instance
    else
      assert Takes(keys[..|keys| - 1], key) by {
        var k :| k in keys && k.key == key;
        assert k in keys[..|keys| - 1];
      }
      LastOwner(keys[..|keys| - 1], key)
  }

  /** The turn leaves each Instance it writes at the turn each of its writes is over, and each key
      it takes with the Instance each of its takes names, or let go. */
  predicate StandsAgain(t: Turn) {
    && (forall w | w in t.instances :: LastRecord(t.instances, w.record.instance).turns == w.over)
    && (forall k | k in t.keys ::
          LastOwner(t.keys, k.key) == k.instance || InstanceKey(k.key, LastOwner(t.keys, k.key)) in t.unkeyed)
  }

  lemma {:induction false} LastWritten(db: Db, writes: seq<InstanceWrite>, instance: Id)
    requires Writes(writes, instance)
    ensures RunSteps(db, InstanceSteps(writes)).Ok?
    ensures Read(RunSteps(db, InstanceSteps(writes)).value, InstanceAt(instance)) == Some(InstanceV(LastRecord(writes, instance)))
    decreases |writes|
  {
    var last, first := writes[|writes| - 1], writes[..|writes| - 1];
    assert InstanceSteps(writes) == InstanceSteps(first) + [PutInstance(last.record)];
    InstancesWritten(db, first, instance);
    RunAppended(db, InstanceSteps(first), [PutInstance(last.record)]);
    var before := RunSteps(db, InstanceSteps(first)).value;
    RunsOne(before, PutInstance(last.record));
    if last.record.instance != instance {
      var w :| w in writes && w.record.instance == instance;
      assert w in first;
      LastWritten(db, first, instance);
    }
  }

  lemma {:induction false} LastTaken(db: Db, keys: seq<InstanceKey>, key: Id)
    requires Takes(keys, key)
    ensures RunSteps(db, KeySteps(keys)).Ok?
    ensures OwnerOf(RunSteps(db, KeySteps(keys)).value, key) == Ok(Some(LastOwner(keys, key)))
    decreases |keys|
  {
    var last, first := keys[|keys| - 1], keys[..|keys| - 1];
    assert KeySteps(keys) == KeySteps(first) + [PutKey(last)];
    KeysRun(db, first);
    RunAppended(db, KeySteps(first), [PutKey(last)]);
    RunsOne(RunSteps(db, KeySteps(first)).value, PutKey(last));
    if last.key != key {
      var k :| k in keys && k.key == key;
      assert k in first;
      LastTaken(db, first, key);
    }
  }

  lemma {:induction false} DropsTake(db: Db, keys: seq<InstanceKey>, key: Id, owner: Id)
    requires RunSteps(db, DropSteps(keys)).Ok?
    ensures OwnerOf(db, key) == Ok(None) ==> OwnerOf(RunSteps(db, DropSteps(keys)).value, key) == Ok(None)
    ensures OwnerOf(db, key) == Ok(Some(owner)) && InstanceKey(key, owner) in keys ==>
              OwnerOf(RunSteps(db, DropSteps(keys)).value, key) == Ok(None)
    decreases |keys|
  {
    if keys != [] {
      assert DropSteps(keys)[1..] == DropSteps(keys[1..]) && DropSteps(keys)[0] == DropKey(keys[0]);
      DropsTake(DoStep(db, DropKey(keys[0])).value, keys[1..], key, owner);
    }
  }

  lemma TurnLeaves(db: Db, t: Turn)
    requires RunSteps(db, TurnSteps(t)).Ok?
    ensures var after := RunSteps(db, TurnSteps(t)).value;
            && (forall w | w in t.instances ::
                  InstanceTurns(after, w.record.instance) == Ok(LastRecord(t.instances, w.record.instance).turns))
            && (forall k | k in t.keys ::
                  var owner := LastOwner(t.keys, k.key);
                  OwnerOf(after, k.key) == Ok(if InstanceKey(k.key, owner) in t.unkeyed then None else Some(owner)))
  {
    hide RunSteps, LastRecord, LastOwner;
    var rest := KeySteps(t.keys) + DropSteps(t.unkeyed);
    RunAppended(db, InstanceSteps(t.instances), rest);
    var written := RunSteps(db, InstanceSteps(t.instances)).value;
    RunAppended(written, KeySteps(t.keys), DropSteps(t.unkeyed));
    var keyed := RunSteps(written, KeySteps(t.keys)).value;
    forall w | w in t.instances
      ensures InstanceTurns(RunSteps(db, TurnSteps(t)).value, w.record.instance) == Ok(LastRecord(t.instances, w.record.instance).turns)
    {
      assert Writes(t.instances, w.record.instance);
      LastWritten(db, t.instances, w.record.instance);
      assert NoneWrites(rest, InstanceAt(w.record.instance));
      RunLeaves(written, rest, InstanceAt(w.record.instance));
    }
    forall k | k in t.keys
      ensures var owner := LastOwner(t.keys, k.key);
              OwnerOf(RunSteps(db, TurnSteps(t)).value, k.key)
              == Ok(if InstanceKey(k.key, owner) in t.unkeyed then None else Some(owner))
    {
      assert Takes(t.keys, k.key);
      LastTaken(written, t.keys, k.key);
      var owner := LastOwner(t.keys, k.key);
      DropsTake(keyed, t.unkeyed, k.key, owner);
      if InstanceKey(k.key, owner) !in t.unkeyed {
        DropsLeave(keyed, t.unkeyed, k.key, owner);
      }
    }
  }

  lemma {:induction false} AllStand(db: Db, writes: seq<InstanceWrite>)
    requires forall w | w in writes :: InstanceTurns(db, w.record.instance).Ok?
    ensures InstancesStand(db, writes) == Ok(forall w | w in writes :: InstanceTurns(db, w.record.instance).value == w.over)
    decreases |writes|
  {
    if writes != [] {
      assert writes[0] in writes;
      AllStand(db, writes[1..]);
      assert forall w :: w in writes <==> w == writes[0] || w in writes[1..];
    }
  }

  predicate FreeFor(db: Db, k: InstanceKey) {
    OwnerOf(db, k.key).Ok? && (OwnerOf(db, k.key).value.None? || OwnerOf(db, k.key).value.value == k.instance)
  }

  lemma {:induction false} AllFree(db: Db, keys: seq<InstanceKey>)
    requires forall k | k in keys :: OwnerOf(db, k.key).Ok?
    ensures KeysFree(db, keys) == Ok(forall k | k in keys :: FreeFor(db, k))
    decreases |keys|
  {
    if keys != [] {
      assert keys[0] in keys;
      AllFree(db, keys[1..]);
      assert forall k :: k in keys <==> k == keys[0] || k in keys[1..];
    }
  }

  lemma CurrentAgain(db: Db, t: Turn)
    requires RunSteps(db, TurnSteps(t)).Ok?
    ensures Current(RunSteps(db, TurnSteps(t)).value, t) == Ok(StandsAgain(t))
  {
    hide RunSteps, TurnSteps, LastRecord, LastOwner, InstancesStand, KeysFree, InstanceTurns, OwnerOf;
    TurnLeaves(db, t);
    var after := RunSteps(db, TurnSteps(t)).value;
    AllStand(after, t.instances);
    AllFree(after, t.keys);
    forall k | k in t.keys
      ensures FreeFor(after, k) <==>
                LastOwner(t.keys, k.key) == k.instance || InstanceKey(k.key, LastOwner(t.keys, k.key)) in t.unkeyed
    {
    }
  }

  /** A turn done answers its repeat true where, and only where, its own writes leave what it is
      over as it was: never once it moved an Instance on. A repeat answered no writes nothing. */
  lemma TurnRepeats(ledger: Ledger, t: Turn, moment: Moment, again: Moment)
    requires Typed(ledger.db) && ClaimsNamed(ledger.db) && TurnTook(ledger, t, moment)
    ensures var after := After(ledger, Turning(t), moment);
            && Decide(after, Turning(t), again).Ok?
            && Decide(after, Turning(t), again).value.done == Yes(StandsAgain(t))
            && (!StandsAgain(t) ==> After(after, Turning(t), again) == after)
  {
    hide HandOnSteps, TurnSteps, InstancesStand, KeysFree, RunSteps, StandsAgain, Current, Typed;
    var handed := TurnRuns(ledger, t, moment);
    DecideTyped(ledger, Turning(t), moment);
    var after := After(ledger, Turning(t), moment);
    CurrentAgain(handed, t);
    DecideTyped(after, Turning(t), again);
    TurnAnswers(after, t, again);
    OursAgain(ledger, t, moment);
    hide Ours, Decide;
  }

  lemma OursAgain(ledger: Ledger, t: Turn, moment: Moment)
    requires ClaimsNamed(ledger.db) && TurnTook(ledger, t, moment)
    ensures Ours(After(ledger, Turning(t), moment).db, t.handOn)
  {
    hide RunSteps, TurnSteps, HandOnSteps, Current;
    var handed := TurnRuns(ledger, t, moment);
    TookLeaves(ledger, t.handOn, moment);
    TurnStepsAre(t);
    RunLeaves(handed, TurnSteps(t), ClaimOn(t.handOn.claim.journey));
  }
}
