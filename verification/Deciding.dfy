/** Each operation as the writer does it on a stage of its own, proved against what
    `Operations` says it decides. A stage whose operation fails holds part of it, and is
    dropped. */
module Deciding {
  import opened Wrappers
  import opened Records
  import opened Batches
  import opened Queues
  import opened Holds
  import opened Origins
  import opened Steps
  import opened Operations
  import Claims

  method GetStored(batch: Batch, journey: Id) returns (stored: Result<Option<Stored>>)
    requires batch.Valid()
    ensures stored == StoredOn(batch.View(), journey)
  {
    var value := batch.Get(ClaimOn(journey));
    match value
    case None => stored := Ok(None);
    case Some(ClaimV(kept)) => stored := Ok(Some(kept));
    case Some(_) => stored := Err(Malformed);
  }

  method Grant(batch: Batch, asked: Claim, moment: Moment, until: int)
    returns (granted: Result<Option<Claim>>)
    requires batch.Valid()
    modifies batch`written
    ensures batch.Valid()
    ensures match StoredOn(old(batch.View()), asked.journey)
            case Ok(before) =>
              && granted == Ok(Granted(before, asked, moment.now, until, moment.epoch))
              && batch.View() == AfterGrant(old(batch.View()), before, asked, moment.now, until, moment.epoch)
            case Err(error) => granted == Err(error)
    ensures granted.Ok? ==>
              var last := Claims.Last(old(batch.View()), asked.journey);
              if Claims.Unheld(old(batch.View()), asked.journey, moment.now) then
                && granted.value.Some? && Claims.IsTaken(granted.value.value, asked, last, moment.epoch, until)
                && batch.View() == old(batch.View())[ClaimOn(asked.journey) := ClaimV(Stored(granted.value.value, Holding))]
              else
                && granted.value == (if last.value.claim.token == asked.token then Some(last.value.claim) else None)
                && batch.View() == old(batch.View())
    ensures batch.Touches() == old(batch.Touches())
  {
    hide Overlay, Touched;
    var before :- GetStored(batch, asked.journey);
    if before.Some? && before.value.standing.Holding? && before.value.claim.until >= moment.now {
      if before.value.claim.token == asked.token {
        return Ok(Some(before.value.claim));
      }
      return Ok(None);
    }
    Claims.FencedNext(before, asked, moment.epoch, until);
    var claim := asked.(fence := Fence(moment.epoch, before), until := until);
    batch.Put(ClaimOn(claim.journey), Some(ClaimV(Stored(claim, Holding))));
    return Ok(Some(claim));
  }

  /** What `rest` answers, after what was answered before it. */
  function Following(before: seq<Claim>, rest: Result<seq<Claim>>): (all: Result<seq<Claim>>)
    ensures before == [] ==> all == rest
  {
    match rest
    case Ok(claims) => assert [] + claims == claims; Ok(before + claims)
    case Err(error) => Err(error)
  }

  method Renew(batch: Batch, claims: seq<Claim>, until: int) returns (renewed: Result<seq<Claim>>)
    requires batch.Valid()
    modifies batch`written
    ensures batch.Valid()
    ensures match Renewed(old(batch.View()), claims, until)
            case Ok(held) =>
              renewed == Ok(held) && RunSteps(old(batch.View()), RenewSteps(claims, until)) == Ok(batch.View())
            case Err(error) => renewed == Err(error)
    ensures renewed.Ok? ==>
              batch.Touches() == old(batch.Touches()) + RunTouches(old(batch.View()), RenewSteps(claims, until))
  {
    hide Overlay, Touched, RunTouches;
    var held: seq<Claim> := [];
    ghost var steps := RenewSteps(claims, until);
    RunPlacesNone(batch.View(), steps);
    assert claims[0..] == claims && steps[0..] == steps;
    for i := 0 to |claims|
      invariant batch.Valid()
      invariant RunSteps(old(batch.View()), steps) == RunSteps(batch.View(), steps[i..])
      invariant batch.Touches() == old(batch.Touches())
      invariant Renewed(old(batch.View()), claims, until)
             == Following(held, Renewed(batch.View(), claims[i..], until))
    {
      assert claims[i..][0] == claims[i] && claims[i..][1..] == claims[i + 1..];
      assert steps[i..][0] == steps[i] && steps[i..][1..] == steps[i + 1..];
      var stored :- GetStored(batch, claims[i].journey);
      if stored.Some? && stored.value.HeldBy(claims[i]) {
        var later := stored.value.claim.(until := Max(until, stored.value.claim.until));
        batch.Put(ClaimOn(claims[i].journey), Some(ClaimV(Stored(later, Holding))));
        ghost var rest := Renewed(batch.View(), claims[i + 1..], until);
        assert rest.Ok? ==> held + ([later] + rest.value) == held + [later] + rest.value;
        held := held + [later];
      }
    }
    assert claims[|claims|..] == [] && held + [] == held;
    return Ok(held);
  }

  // ---- The writes a step hands on, each kind a loop of the hand-on. ----

  method CountAndWrite(batch: Batch, records: seq<JourneyRecord>, places: seq<Hold>)
    returns (done: Result<()>)
    requires batch.Valid()
    modifies batch`written
    ensures batch.Valid()
    ensures Took(RunSteps(old(batch.View()), CountSteps(records, places)), done, batch.View())
    ensures done.Ok? ==>
              batch.Touches() == old(batch.Touches()) + RunTouches(old(batch.View()), CountSteps(records, places))
  {
    hide Overlay, Touched;
    for i := 0 to |records|
      invariant batch.Valid()
      invariant RunSteps(old(batch.View()), CountSteps(records, places))
             == RunSteps(batch.View(), CountSteps(records[i..], places))
      invariant old(batch.Touches()) + RunTouches(old(batch.View()), CountSteps(records, places))
             == batch.Touches() + RunTouches(batch.View(), CountSteps(records[i..], places))
    {
      ghost var rest := CountSteps(records[i + 1..], places);
      assert records[i..][0] == records[i] && records[i..][1..] == records[i + 1..];
      assert CountSteps(records[i..], places) == [Count(records[i], places), PutJourney(records[i])] + rest;
      assert CountSteps(records[i..], places)[1..] == [PutJourney(records[i])] + rest;
      assert ([PutJourney(records[i])] + rest)[1..] == rest;
      var _ :- CountRecord(batch, records[i], places);
      batch.Put(JourneyAt(records[i].journey), Some(JourneyV(records[i])));
    }
    return Ok(());
  }

  method WriteAll(batch: Batch, messages: seq<MessageRecord>)
    requires batch.Valid()
    modifies batch`written
    ensures batch.Valid() && RunSteps(old(batch.View()), MessageSteps(messages)) == Ok(batch.View())
    ensures batch.Touches() == old(batch.Touches()) + RunTouches(old(batch.View()), MessageSteps(messages))
  {
    hide Overlay, Touched, RunTouches;
    ghost var steps := MessageSteps(messages);
    RunPlacesNone(batch.View(), steps);
    for i := 0 to |messages|
      invariant batch.Valid()
      invariant RunSteps(old(batch.View()), steps) == RunSteps(batch.View(), steps[i..])
      invariant batch.Touches() == old(batch.Touches())
    {
      assert steps[i..][0] == steps[i] && steps[i..][1..] == steps[i + 1..];
      batch.Put(MessageAt(messages[i].message), Some(MessageV(messages[i])));
    }
  }

  method LeaveAll(batch: Batch, queues: seq<Id>, journey: Id) returns (done: Result<()>)
    requires batch.Valid()
    modifies batch`written
    ensures batch.Valid()
    ensures Took(RunSteps(old(batch.View()), LeaveSteps(queues, journey)), done, batch.View())
    ensures done.Ok? ==>
              batch.Touches() == old(batch.Touches()) + RunTouches(old(batch.View()), LeaveSteps(queues, journey))
  {
    hide Overlay, Touched;
    ghost var steps := LeaveSteps(queues, journey);
    for i := 0 to |queues|
      invariant batch.Valid()
      invariant RunSteps(old(batch.View()), steps) == RunSteps(batch.View(), steps[i..])
      invariant old(batch.Touches()) + RunTouches(old(batch.View()), steps)
             == batch.Touches() + RunTouches(batch.View(), steps[i..])
    {
      assert steps[i..][0] == steps[i] && steps[i..][1..] == steps[i + 1..];
      var _ :- LetGo(batch, queues[i], journey);
    }
    return Ok(());
  }

  method JoinAll(batch: Batch, holds: seq<Hold>) returns (done: Result<()>)
    requires batch.Valid()
    modifies batch`written
    ensures batch.Valid()
    ensures Took(RunSteps(old(batch.View()), JoinSteps(holds)), done, batch.View())
    ensures done.Ok? ==> batch.Touches() == old(batch.Touches()) + RunTouches(old(batch.View()), JoinSteps(holds))
  {
    hide Overlay, Touched;
    ghost var steps := JoinSteps(holds);
    for i := 0 to |holds|
      invariant batch.Valid()
      invariant RunSteps(old(batch.View()), steps) == RunSteps(batch.View(), steps[i..])
      invariant old(batch.Touches()) + RunTouches(old(batch.View()), steps)
             == batch.Touches() + RunTouches(batch.View(), steps[i..])
    {
      assert steps[i..][0] == steps[i] && steps[i..][1..] == steps[i + 1..];
      var _ :- KeepHold(batch, holds[i]);
    }
    return Ok(());
  }

  method MoveAllToEnd(batch: Batch, queues: seq<Id>, journey: Id) returns (done: Result<()>)
    requires batch.Valid()
    modifies batch`written
    ensures batch.Valid()
    ensures Took(RunSteps(old(batch.View()), EndSteps(queues, journey)), done, batch.View())
    ensures done.Ok? ==>
              batch.Touches() == old(batch.Touches()) + RunTouches(old(batch.View()), EndSteps(queues, journey))
  {
    hide Overlay, Touched;
    ghost var steps := EndSteps(queues, journey);
    for i := 0 to |queues|
      invariant batch.Valid()
      invariant RunSteps(old(batch.View()), steps) == RunSteps(batch.View(), steps[i..])
      invariant old(batch.Touches()) + RunTouches(old(batch.View()), steps)
             == batch.Touches() + RunTouches(batch.View(), steps[i..])
    {
      assert steps[i..][0] == steps[i] && steps[i..][1..] == steps[i + 1..];
      var _ :- MoveToTheEnd(batch, queues[i], journey);
    }
    return Ok(());
  }

  method UnfailAll(batch: Batch, queues: seq<Id>, journey: Id) returns (done: Result<()>)
    requires batch.Valid()
    modifies batch`written
    ensures batch.Valid()
    ensures Took(RunSteps(old(batch.View()), UnfailSteps(queues, journey)), done, batch.View())
    ensures done.Ok? ==>
              batch.Touches() == old(batch.Touches()) + RunTouches(old(batch.View()), UnfailSteps(queues, journey))
  {
    hide Overlay, Touched;
    ghost var steps := UnfailSteps(queues, journey);
    for i := 0 to |queues|
      invariant batch.Valid()
      invariant RunSteps(old(batch.View()), steps) == RunSteps(batch.View(), steps[i..])
      invariant old(batch.Touches()) + RunTouches(old(batch.View()), steps)
             == batch.Touches() + RunTouches(batch.View(), steps[i..])
    {
      assert steps[i..][0] == steps[i] && steps[i..][1..] == steps[i + 1..];
      var _ :- ClearFailed(batch, queues[i], journey);
    }
    return Ok(());
  }

  /** The queues the Message leaves, joins and moves to the end of. */
  method MoveAlong(batch: Batch, h: HandOn) returns (done: Result<()>)
    requires batch.Valid()
    modifies batch`written
    ensures batch.Valid()
    ensures Took(RunSteps(old(batch.View()),
                          LeaveSteps(h.leaves, h.claim.journey) + (JoinSteps(h.queued) + EndSteps(h.requeued, h.claim.journey))),
                 done, batch.View())
    ensures done.Ok? ==>
              batch.Touches() == old(batch.Touches())
                                 + RunTouches(old(batch.View()),
                                     LeaveSteps(h.leaves, h.claim.journey) + (JoinSteps(h.queued) + EndSteps(h.requeued, h.claim.journey)))
  {
    hide Overlay, Touched, RunSteps, RunTouches;
    ghost var start := batch.View();
    RunAdds(start, LeaveSteps(h.leaves, h.claim.journey), JoinSteps(h.queued) + EndSteps(h.requeued, h.claim.journey));
    var _ :- LeaveAll(batch, h.leaves, h.claim.journey);
    RunAdds(batch.View(), JoinSteps(h.queued), EndSteps(h.requeued, h.claim.journey));
    var _ :- JoinAll(batch, h.queued);
    done := MoveAllToEnd(batch, h.requeued, h.claim.journey);
  }

  /** What it wrote: the result, the Messages it made and the Journeys that go on. */
  method WriteResult(batch: Batch, h: HandOn) returns (done: Result<()>)
    requires batch.Valid()
    modifies batch`written
    ensures batch.Valid()
    ensures Took(RunSteps(old(batch.View()),
                          CountSteps([h.result], h.queued) + (MessageSteps(h.messages) + CountSteps(h.next, h.queued))),
                 done, batch.View())
    ensures done.Ok? ==>
              batch.Touches() == old(batch.Touches())
                                 + RunTouches(old(batch.View()),
                                     CountSteps([h.result], h.queued) + (MessageSteps(h.messages) + CountSteps(h.next, h.queued)))
  {
    hide Overlay, Touched, RunSteps, RunTouches;
    ghost var start := batch.View();
    RunAdds(start, CountSteps([h.result], h.queued), MessageSteps(h.messages) + CountSteps(h.next, h.queued));
    var _ :- CountAndWrite(batch, [h.result], h.queued);
    RunAdds(batch.View(), MessageSteps(h.messages), CountSteps(h.next, h.queued));
    WriteAll(batch, h.messages);
    done := CountAndWrite(batch, h.next, h.queued);
  }

  /** Where it leaves the Message: failed, cleared or waiting for a retry. */
  method LeaveStanding(batch: Batch, h: HandOn, now: int) returns (done: Result<()>)
    requires batch.Valid()
    modifies batch`written
    ensures batch.Valid()
    ensures Took(RunSteps(old(batch.View()),
                          FailSteps(h, now) + (UnfailSteps(h.cleared, h.claim.journey) + WaitSteps(h, now))),
                 done, batch.View())
    ensures done.Ok? ==>
              batch.Touches() == old(batch.Touches())
                                 + RunTouches(old(batch.View()),
                                     FailSteps(h, now) + (UnfailSteps(h.cleared, h.claim.journey) + WaitSteps(h, now)))
  {
    hide Overlay, Touched;
    ghost var start := batch.View();
    RunAdds(start, FailSteps(h, now), UnfailSteps(h.cleared, h.claim.journey) + WaitSteps(h, now));
    if h.failed.Some? {
      AddsOne(start, Fail(h.claim.journey, h.failed.value, now));
      var _ :- EnterFailed(batch, h.claim.journey, h.failed.value, now);
    }
    RunAdds(batch.View(), UnfailSteps(h.cleared, h.claim.journey), WaitSteps(h, now));
    var _ :- UnfailAll(batch, h.cleared, h.claim.journey);
    if h.waits.Some? {
      var due := SaturatingAdd(now, h.waits.value.afterNanos);
      AddsOne(batch.View(), Defer(h.waits.value.queue, h.claim.journey, due));
      done := WaitUntil(batch, h.waits.value.queue, h.claim.journey, due);
      return done;
    }
    return Ok(());
  }

  /** The parts a hand-on is done in, put together in the order it is written. */
  lemma HandOnParts(h: HandOn, held: Claim, now: int)
    ensures HandOnSteps(h, held, now)
         == (CountSteps([h.result], h.queued) + (MessageSteps(h.messages) + CountSteps(h.next, h.queued)))
          + ((LeaveSteps(h.leaves, h.claim.journey) + (JoinSteps(h.queued) + EndSteps(h.requeued, h.claim.journey)))
          + ((FailSteps(h, now) + (UnfailSteps(h.cleared, h.claim.journey) + WaitSteps(h, now)))
          + [LastStep(h, held, now)]))
  {
  }

  /** All a hand-on under the claim `held` writes, its claim ended or kept last. */
  method WriteHandOn(batch: Batch, h: HandOn, held: Claim, now: int) returns (done: Result<()>)
    requires batch.Valid()
    modifies batch`written
    ensures batch.Valid()
    ensures Took(RunSteps(old(batch.View()), HandOnSteps(h, held, now)), done, batch.View())
    ensures done.Ok? ==>
              batch.Touches() == old(batch.Touches()) + RunTouches(old(batch.View()), HandOnSteps(h, held, now))
  {
    hide Overlay, Touched, RunSteps, RunTouches;
    ghost var start := batch.View();
    ghost var wrote := CountSteps([h.result], h.queued) + (MessageSteps(h.messages) + CountSteps(h.next, h.queued));
    ghost var moved := LeaveSteps(h.leaves, h.claim.journey) + (JoinSteps(h.queued) + EndSteps(h.requeued, h.claim.journey));
    ghost var stands := FailSteps(h, now) + (UnfailSteps(h.cleared, h.claim.journey) + WaitSteps(h, now));
    ghost var last := [LastStep(h, held, now)];
    HandOnParts(h, held, now);
    RunAdds(start, wrote, moved + (stands + last));
    var _ :- WriteResult(batch, h);
    RunAdds(batch.View(), moved, stands + last);
    var _ :- MoveAlong(batch, h);
    RunAdds(batch.View(), stands, last);
    var _ :- LeaveStanding(batch, h, now);
    AddsOne(batch.View(), LastStep(h, held, now));
    if h.keptForNanos.Some? {
      var kept := held.(until := SaturatingAdd(now, h.keptForNanos.value));
      batch.Put(ClaimOn(held.journey), Some(ClaimV(Stored(kept, Holding))));
    } else {
      batch.Put(ClaimOn(held.journey), Some(ClaimV(Stored(held, HandedOn))));
    }
    return Ok(());
  }

  method DoHandOn(batch: Batch, h: HandOn, now: int) returns (yes: Result<bool>)
    requires batch.Valid()
    modifies batch`written
    ensures batch.Valid()
    ensures match HandOnPlan(old(batch.View()), h, now)
            case Ok(plan) =>
              match RunSteps(old(batch.View()), plan.steps) {
                case Ok(db) => yes.Ok? && plan.done == Yes(yes.value) && batch.View() == db
                case Err(error) => yes == Err(error)
              }
            case Err(error) => yes == Err(error)
    ensures yes.Ok? ==>
              batch.Touches() == old(batch.Touches())
                 + PlanTouches(old(batch.View()), HandOnPlan(old(batch.View()), h, now))
  {
    var stored :- GetStored(batch, h.claim.journey);
    if stored.None? {
      return Ok(false);
    }
    var ours := stored.value.claim.Is(h.claim);
    match stored.value.standing {
      case HandedOn => return Ok(ours);
      case Released => return Ok(false);
      case Holding =>
    }
    if !ours {
      return Ok(false);
    }
    var _ :- WriteHandOn(batch, h, stored.value.claim, now);
    return Ok(true);
  }

  // ---- A Work Process's turn. ----

  method Stand(batch: Batch, writes: seq<InstanceWrite>) returns (stand: Result<bool>)
    requires batch.Valid()
    ensures stand == InstancesStand(batch.View(), writes)
  {
    for i := 0 to |writes|
      invariant InstancesStand(batch.View(), writes) == InstancesStand(batch.View(), writes[i..])
    {
      assert writes[i..][0] == writes[i] && writes[i..][1..] == writes[i + 1..];
      var value := batch.Get(InstanceAt(writes[i].record.instance));
      var turns := 0;
      match value {
        case None =>
        case Some(InstanceV(record)) => turns := record.turns;
        case Some(_) => return Err(Malformed);
      }
      if turns != writes[i].over {
        return Ok(false);
      }
    }
    return Ok(true);
  }

  method GetOwner(batch: Batch, key: Id) returns (owner: Result<Option<Id>>)
    requires batch.Valid()
    ensures owner == OwnerOf(batch.View(), key)
  {
    var value := batch.Get(InstanceKeyAt(key));
    match value
    case None => owner := Ok(None);
    case Some(InstanceKeyV(found)) => owner := Ok(Some(found));
    case Some(_) => owner := Err(Malformed);
  }

  method Free(batch: Batch, keys: seq<InstanceKey>) returns (are: Result<bool>)
    requires batch.Valid()
    ensures are == KeysFree(batch.View(), keys)
  {
    for i := 0 to |keys|
      invariant KeysFree(batch.View(), keys) == KeysFree(batch.View(), keys[i..])
    {
      assert keys[i..][0] == keys[i] && keys[i..][1..] == keys[i + 1..];
      var owner :- GetOwner(batch, keys[i].key);
      if owner.Some? && owner.value != keys[i].instance {
        return Ok(false);
      }
    }
    return Ok(true);
  }

  method WriteInstances(batch: Batch, writes: seq<InstanceWrite>)
    requires batch.Valid()
    modifies batch`written
    ensures batch.Valid() && RunSteps(old(batch.View()), InstanceSteps(writes)) == Ok(batch.View())
    ensures batch.Touches() == old(batch.Touches()) + RunTouches(old(batch.View()), InstanceSteps(writes))
  {
    hide Overlay, Touched, RunTouches;
    ghost var steps := InstanceSteps(writes);
    RunPlacesNone(batch.View(), steps);
    for i := 0 to |writes|
      invariant batch.Valid()
      invariant RunSteps(old(batch.View()), steps) == RunSteps(batch.View(), steps[i..])
      invariant batch.Touches() == old(batch.Touches())
    {
      assert steps[i..][0] == steps[i] && steps[i..][1..] == steps[i + 1..];
      batch.Put(InstanceAt(writes[i].record.instance), Some(InstanceV(writes[i].record)));
    }
  }

  method WriteKeys(batch: Batch, keys: seq<InstanceKey>)
    requires batch.Valid()
    modifies batch`written
    ensures batch.Valid() && RunSteps(old(batch.View()), KeySteps(keys)) == Ok(batch.View())
    ensures batch.Touches() == old(batch.Touches()) + RunTouches(old(batch.View()), KeySteps(keys))
  {
    hide Overlay, Touched, RunTouches;
    ghost var steps := KeySteps(keys);
    RunPlacesNone(batch.View(), steps);
    for i := 0 to |keys|
      invariant batch.Valid()
      invariant RunSteps(old(batch.View()), steps) == RunSteps(batch.View(), steps[i..])
      invariant batch.Touches() == old(batch.Touches())
    {
      assert steps[i..][0] == steps[i] && steps[i..][1..] == steps[i + 1..];
      batch.Put(InstanceKeyAt(keys[i].key), Some(InstanceKeyV(keys[i].instance)));
    }
  }

  method DropKeys(batch: Batch, keys: seq<InstanceKey>) returns (done: Result<()>)
    requires batch.Valid()
    modifies batch`written
    ensures batch.Valid() && Took(RunSteps(old(batch.View()), DropSteps(keys)), done, batch.View())
    ensures done.Ok? ==> batch.Touches() == old(batch.Touches()) + RunTouches(old(batch.View()), DropSteps(keys))
  {
    hide Overlay, Touched, RunTouches;
    ghost var steps := DropSteps(keys);
    RunPlacesNone(batch.View(), steps);
    for i := 0 to |keys|
      invariant batch.Valid()
      invariant RunSteps(old(batch.View()), steps) == RunSteps(batch.View(), steps[i..])
      invariant batch.Touches() == old(batch.Touches())
    {
      assert steps[i..][0] == steps[i] && steps[i..][1..] == steps[i + 1..];
      var owner :- GetOwner(batch, keys[i].key);
      if owner == Some(keys[i].instance) {
        batch.Put(InstanceKeyAt(keys[i].key), None);
      }
    }
    return Ok(());
  }

  /** The Instances a turn moved, the keys it correlated and the keys it let go. */
  method WriteTurn(batch: Batch, t: Turn) returns (done: Result<()>)
    requires batch.Valid()
    modifies batch`written
    ensures batch.Valid() && Took(RunSteps(old(batch.View()), TurnSteps(t)), done, batch.View())
    ensures done.Ok? ==> batch.Touches() == old(batch.Touches()) + RunTouches(old(batch.View()), TurnSteps(t))
  {
    hide Overlay, Touched, RunSteps, RunTouches;
    RunAdds(batch.View(), InstanceSteps(t.instances), KeySteps(t.keys) + DropSteps(t.unkeyed));
    WriteInstances(batch, t.instances);
    RunAdds(batch.View(), KeySteps(t.keys), DropSteps(t.unkeyed));
    WriteKeys(batch, t.keys);
    done := DropKeys(batch, t.unkeyed);
  }

  /** An operation's stage came to what its plan says, or failed as it says. */
  ghost predicate Did(plan: Result<Plan>, before: Db, done: Result<Done>, view: Db) {
    match plan
    case Err(error) => done == Err(error)
    case Ok(p) =>
      match RunSteps(before, p.steps)
      case Ok(db) => done == Ok(p.done) && view == db
      case Err(error) => done == Err(error)
  }

  method DoTurn(batch: Batch, t: Turn, now: int) returns (done: Result<Done>)
    requires batch.Valid()
    modifies batch`written
    ensures batch.Valid() && Did(TurnPlan(old(batch.View()), t, now), old(batch.View()), done, batch.View())
    ensures done.Ok? ==>
              batch.Touches() == old(batch.Touches())
                 + PlanTouches(old(batch.View()), TurnPlan(old(batch.View()), t, now))
  {
    var stand :- Stand(batch, t.instances);
    if !stand {
      return Ok(Yes(false));
    }
    var are :- Free(batch, t.keys);
    if !are {
      return Ok(Yes(false));
    }
    ghost var start := batch.View();
    ghost var plan := HandOnPlan(start, t.handOn, now);
    if plan.Ok? {
      RunAdds(start, plan.value.steps, TurnSteps(t));
    }
    var yes :- DoHandOn(batch, t.handOn, now);
    if !yes {
      return Ok(Yes(false));
    }
    var _ :- WriteTurn(batch, t);
    return Ok(Yes(true));
  }

  // ---- A Publication and a Replay. ----

  method AskedClaims(batch: Batch, claims: seq<Claim>) returns (held: Result<seq<Claim>>)
    requires batch.Valid()
    ensures held == StillHeld(batch.View(), claims)
  {
    var kept: seq<Claim> := [];
    assert claims[0..] == claims;
    for i := 0 to |claims|
      invariant StillHeld(batch.View(), claims) == Following(kept, StillHeld(batch.View(), claims[i..]))
    {
      assert claims[i..][0] == claims[i] && claims[i..][1..] == claims[i + 1..];
      ghost var rest := StillHeld(batch.View(), claims[i + 1..]);
      var stored :- GetStored(batch, claims[i].journey);
      if stored.Some? && stored.value.AskedBy(claims[i]) {
        assert rest.Ok? ==> kept + ([stored.value.claim] + rest.value) == kept + [stored.value.claim] + rest.value;
        kept := kept + [stored.value.claim];
      } else {
        assert rest.Ok? ==> [] + rest.value == rest.value;
      }
    }
    assert claims[|claims|..] == [] && kept + [] == kept;
    return Ok(kept);
  }

  method GrantAll(batch: Batch, claims: seq<Claim>, moment: Moment, until: int)
    returns (granted: Result<seq<Claim>>)
    requires batch.Valid()
    modifies batch`written
    ensures batch.Valid()
    ensures granted == Grants(old(batch.View()), claims, moment, until)
    ensures granted.Ok? ==> RunSteps(old(batch.View()), GrantSteps(claims, moment, until)) == Ok(batch.View())
    ensures granted.Ok? ==>
              batch.Touches() == old(batch.Touches()) + RunTouches(old(batch.View()), GrantSteps(claims, moment, until))
  {
    hide Overlay, Touched, RunTouches;
    var held: seq<Claim> := [];
    ghost var steps := GrantSteps(claims, moment, until);
    RunPlacesNone(batch.View(), steps);
    assert claims[0..] == claims && steps[0..] == steps;
    for i := 0 to |claims|
      invariant batch.Valid()
      invariant RunSteps(old(batch.View()), steps) == RunSteps(batch.View(), steps[i..])
      invariant batch.Touches() == old(batch.Touches())
      invariant Grants(old(batch.View()), claims, moment, until)
             == Following(held, Grants(batch.View(), claims[i..], moment, until))
    {
      assert claims[i..][0] == claims[i] && claims[i..][1..] == claims[i + 1..];
      assert steps[i..][0] == steps[i] && steps[i..][1..] == steps[i + 1..];
      var claim :- Grant(batch, claims[i], moment, until);
      ghost var rest := Grants(batch.View(), claims[i + 1..], moment, until);
      if claim.Some? {
        assert rest.Ok? ==> held + ([claim.value] + rest.value) == held + [claim.value] + rest.value;
        held := held + [claim.value];
      } else {
        assert rest.Ok? ==> [] + rest.value == rest.value;
      }
    }
    assert claims[|claims|..] == [] && held + [] == held;
    return Ok(held);
  }

  method WritePublication(batch: Batch, p: Publication) returns (done: Result<()>)
    requires batch.Valid()
    modifies batch`written
    ensures batch.Valid() && Took(RunSteps(old(batch.View()), PublicationSteps(p)), done, batch.View())
    ensures done.Ok? ==> batch.Touches() == old(batch.Touches()) + RunTouches(old(batch.View()), PublicationSteps(p))
  {
    hide Overlay, Touched, RunSteps, RunTouches, CountSteps, JoinSteps;
    ghost var dead: seq<Step> := if p.dead.None? then [] else [KeepDead(p.dead.value)];
    ghost var counts, joins := CountSteps(p.journeys, p.held), JoinSteps(p.held);
    ghost var start := batch.View();
    assert PublicationSteps(p) == [PutMessage(p.message)] + (counts + (joins + dead));
    RunAdds(start, [PutMessage(p.message)], counts + (joins + dead));
    AddsOne(start, PutMessage(p.message));
    batch.Put(MessageAt(p.message.message), Some(MessageV(p.message)));
    RunAdds(batch.View(), counts, joins + dead);
    var _ :- CountAndWrite(batch, p.journeys, p.held);
    RunAdds(batch.View(), joins, dead);
    var _ :- JoinAll(batch, p.held);
    if p.dead.Some? {
      AddsOne(batch.View(), KeepDead(p.dead.value));
      done := PlaceAtEnd(batch, DeadLine, p.dead.value.queue, p.dead.value.message, FreshDead(p.dead.value));
      return done;
    }
    AddsNone(batch.View());
    return Ok(());
  }

  /** That it was written, and its audit record, last of all. */
  method KeepPublished(batch: Batch, next: nat, p: Publication)
    requires batch.Valid()
    modifies batch`written
    ensures batch.Valid()
    ensures RunSteps(old(batch.View()), [PutPublished(p), PutAudit(next, p.audit)]) == Ok(batch.View())
    ensures batch.Touches() == old(batch.Touches())
               + RunTouches(old(batch.View()), [PutPublished(p), PutAudit(next, p.audit)])
  {
    hide Overlay, Touched;
    ghost var last := [PutPublished(p), PutAudit(next, p.audit)];
    assert last[1..] == [PutAudit(next, p.audit)];
    batch.Put(PublishedAt(p.message.message), Some(PublishedV(p)));
    AddsOne(batch.View(), PutAudit(next, p.audit));
    batch.Put(AuditAt(next), Some(AuditV(p.audit)));
  }

  /** What a Publication not written before writes, and the claims it is granted. */
  method WritePublished(batch: Batch, next: nat, p: Publication, moment: Moment, until: int)
    returns (held: Result<seq<Claim>>)
    requires batch.Valid()
    modifies batch`written
    ensures batch.Valid()
    ensures match RunSteps(old(batch.View()), PublicationSteps(p))
            case Err(error) => held == Err(error)
            case Ok(published) => held == Grants(published, p.claims, moment, until)
    ensures held.Ok? ==> RunSteps(old(batch.View()), PublishSteps(p, next, moment, until)) == Ok(batch.View())
    ensures held.Ok? ==>
              batch.Touches() == old(batch.Touches())
                 + RunTouches(old(batch.View()), PublishSteps(p, next, moment, until))
  {
    hide Overlay, Touched, RunSteps, RunTouches;
    ghost var grants, last := GrantSteps(p.claims, moment, until), [PutPublished(p), PutAudit(next, p.audit)];
    RunAdds(batch.View(), PublicationSteps(p), grants + last);
    var _ :- WritePublication(batch, p);
    RunAdds(batch.View(), grants, last);
    held := GrantAll(batch, p.claims, moment, until);
    if held.Ok? {
      KeepPublished(batch, next, p);
    }
  }

  method PublishNow(batch: Batch, next: nat, p: Publication, moment: Moment) returns (done: Result<Done>)
    requires batch.Valid() && PublishedAt(p.message.message) !in batch.View()
    modifies batch`written
    ensures batch.Valid()
    ensures Did(PublishPlan(old(batch.View()), next, p, moment), old(batch.View()), done, batch.View())
    ensures done.Ok? ==>
              batch.Touches() == old(batch.Touches())
                 + PlanTouches(old(batch.View()), PublishPlan(old(batch.View()), next, p, moment))
  {
    var until := SaturatingAdd(moment.now, p.leaseNanos);
    var held :- WritePublished(batch, next, p, moment, until);
    return Ok(Claims(held));
  }

  method DoPublish(batch: Batch, next: nat, p: Publication, moment: Moment) returns (done: Result<Done>, audits: nat)
    requires batch.Valid()
    modifies batch`written
    ensures batch.Valid()
    ensures Did(PublishPlan(old(batch.View()), next, p, moment), old(batch.View()), done, batch.View())
    ensures done.Ok? ==>
              batch.Touches() == old(batch.Touches())
                 + PlanTouches(old(batch.View()), PublishPlan(old(batch.View()), next, p, moment))
    ensures done.Ok? ==> audits == PublishPlan(old(batch.View()), next, p, moment).value.audits
  {
    audits := 0;
    var written := batch.Get(PublishedAt(p.message.message));
    if written.None? {
      audits := 1;
      done := PublishNow(batch, next, p, moment);
    } else if written.value != PublishedV(p) {
      done := Err(PublishedBefore);
    } else {
      var held := AskedClaims(batch, p.claims);
      done := match held case Ok(claims) => Ok(Claims(claims)) case Err(error) => Err(error);
    }
  }

  lemma ReplayParts(r: Replay, place: nat, next: nat)
    ensures ReplaySteps(r, place, next)
         == [TakeDead(r.queue, r.message, place)]
            + (CountSteps(r.journeys, r.held) + (JoinSteps(r.held) + [PutAudit(next, r.audit)]))
  {
  }

  method WriteReplay(batch: Batch, r: Replay, place: nat, next: nat) returns (done: Result<()>)
    requires batch.Valid()
    modifies batch`written
    ensures batch.Valid() && Took(RunSteps(old(batch.View()), ReplaySteps(r, place, next)), done, batch.View())
    ensures done.Ok? ==>
              batch.Touches() == old(batch.Touches()) + RunTouches(old(batch.View()), ReplaySteps(r, place, next))
  {
    hide Overlay, Touched, RunSteps, RunTouches, CountSteps, JoinSteps, ReplaySteps;
    ghost var counts, joins := CountSteps(r.journeys, r.held), JoinSteps(r.held);
    ghost var take, audit := [TakeDead(r.queue, r.message, place)], [PutAudit(next, r.audit)];
    ReplayParts(r, place, next);
    RunAdds(batch.View(), take, counts + (joins + audit));
    AddsOne(batch.View(), TakeDead(r.queue, r.message, place));
    var _ :- TakeOutEntry(batch, DeadLine, r.queue, place);
    Remember(batch, DeadLine, r.queue, r.message);
    RunAdds(batch.View(), counts, joins + audit);
    var _ :- CountAndWrite(batch, r.journeys, r.held);
    RunAdds(batch.View(), joins, audit);
    var _ :- JoinAll(batch, r.held);
    AddsOne(batch.View(), PutAudit(next, r.audit));
    batch.Put(AuditAt(next), Some(AuditV(r.audit)));
    return Ok(());
  }

  method DoReplay(batch: Batch, next: nat, r: Replay) returns (done: Result<Done>, audits: nat)
    requires batch.Valid()
    modifies batch`written
    ensures batch.Valid()
    ensures Did(ReplayPlan(old(batch.View()), next, r), old(batch.View()), done, batch.View())
    ensures done.Ok? ==>
              batch.Touches() == old(batch.Touches())
                 + PlanTouches(old(batch.View()), ReplayPlan(old(batch.View()), next, r))
    ensures done.Ok? ==> audits == ReplayPlan(old(batch.View()), next, r).value.audits
  {
    audits := 0;
    var placed := ReadPlaced(batch, DeadLine, r.queue, r.message);
    if placed.Err? {
      return Err(placed.error), 0;
    }
    match placed.value
    case Never => return Ok(Replays(Absent)), 0;
    case Out => return Ok(Replays(ReplayedBefore)), 0;
    case AtPlace(place) =>
      var wrote := WriteReplay(batch, r, place, next);
      if wrote.Err? {
        return Err(wrote.error), 0;
      }
      return Ok(Replays(ReplayedNow)), 1;
  }

  // ---- Every operation. ----

  method Release(batch: Batch, claim: Claim) returns (done: Result<Done>)
    requires batch.Valid()
    modifies batch`written
    ensures batch.Valid()
    ensures Did(PlanOf(old(batch.View()), 0, ReleaseClaim(claim), Moment(0, 0)), old(batch.View()), done, batch.View())
    ensures done.Ok? ==>
              batch.Touches() == old(batch.Touches())
                 + PlanTouches(old(batch.View()), PlanOf(old(batch.View()), 0, ReleaseClaim(claim), Moment(0, 0)))
  {
    var stored :- GetStored(batch, claim.journey);
    if stored.Some? && stored.value.HeldBy(claim) {
      AddsOne(batch.View(), SetClaim(Stored(stored.value.claim, Released)));
      batch.Put(ClaimOn(stored.value.claim.journey), Some(ClaimV(Stored(stored.value.claim, Released))));
      return Ok(Yes(true));
    }
    return Ok(Yes(false));
  }

  lemma Forgets(db: Db, number: nat)
    ensures PlanOf(db, 0, ForgetAudit(number), Moment(0, 0))
         == match KeptUpTo(db)
            case Err(error) => Err(error)
            case Ok(kept) => if kept != number then Ok(Nothing(Yes(false)))
                             else Ok(Plan(Yes(true), [DropAudit(number)], 0))
    ensures RunSteps(db, [DropAudit(number)]) == Ok((db - {AuditAt(number)})[KeptAt := NumberV(number + 1)])
    ensures RunSteps(db, []) == Ok(db) && RunTouches(db, []) == {} == RunTouches(db, [DropAudit(number)])
  {
    AddsOne(db, DropAudit(number));
  }

  /** An audit record the keeper has moved forgotten, where it has not been already. */
  method Forgotten(batch: Batch, number: nat) returns (done: Result<Done>)
    requires batch.Valid()
    modifies batch`written
    ensures batch.Valid()
    ensures Did(PlanOf(old(batch.View()), 0, ForgetAudit(number), Moment(0, 0)), old(batch.View()), done, batch.View())
    ensures done.Ok? ==>
              batch.Touches() == old(batch.Touches())
                 + PlanTouches(old(batch.View()), PlanOf(old(batch.View()), 0, ForgetAudit(number), Moment(0, 0)))
  {
    hide PlanOf, DoStep, RunSteps;
    Forgets(batch.View(), number);
    var value := batch.Get(KeptAt);
    var kept := 0;
    match value {
      case None =>
      case Some(NumberV(found)) => kept := found;
      case Some(_) => return Err(Malformed);
    }
    if kept != number {
      return Ok(Yes(false));
    }
    batch.Put(AuditAt(number), None);
    batch.Put(KeptAt, Some(NumberV(number + 1)));
    return Ok(Yes(true));
  }

  method Take(batch: Batch, claim: Claim, leaseNanos: nat, moment: Moment) returns (done: Result<Done>)
    requires batch.Valid()
    modifies batch`written
    ensures batch.Valid()
    ensures Did(PlanOf(old(batch.View()), 0, TakeClaim(claim, leaseNanos), moment), old(batch.View()), done, batch.View())
    ensures done.Ok? ==>
              batch.Touches() == old(batch.Touches())
                 + PlanTouches(old(batch.View()), PlanOf(old(batch.View()), 0, TakeClaim(claim, leaseNanos), moment))
  {
    var until := SaturatingAdd(moment.now, leaseNanos);
    AddsOne(batch.View(), GrantClaim(claim, moment.now, until, moment.epoch));
    var granted :- Grant(batch, claim, moment, until);
    return Ok(OneClaim(granted));
  }

  /** One operation decided on its stage; one that fails leaves the stage to be dropped. */
  method DoDecide(batch: Batch, next: nat, op: Op, moment: Moment) returns (done: Result<Done>, audits: nat)
    requires batch.Valid()
    modifies batch`written
    ensures batch.Valid()
    ensures Did(PlanOf(old(batch.View()), next, op, moment), old(batch.View()), done, batch.View())
    ensures done.Ok? ==>
              batch.Touches() == old(batch.Touches())
                 + PlanTouches(old(batch.View()), PlanOf(old(batch.View()), next, op, moment))
    ensures done.Ok? ==> audits == PlanOf(old(batch.View()), next, op, moment).value.audits
  {
    hide Overlay, Touched, RunSteps, RunTouches, HandOnSteps, TurnSteps, Current, PublishPlan, ReplayPlan;
    audits := 0;
    match op
    case WriteJourney(journey) =>
      AddsOne(batch.View(), PutJourney(journey));
      batch.Put(JourneyAt(journey.journey), Some(JourneyV(journey)));
      done := Ok(Written);
    case WriteMessage(message) =>
      AddsOne(batch.View(), PutMessage(message));
      batch.Put(MessageAt(message.message), Some(MessageV(message)));
      done := Ok(Written);
    case TakeClaim(claim, leaseNanos) =>
      done := Take(batch, claim, leaseNanos, moment);
    case RenewClaims(claims, leaseNanos) =>
      var held := Renew(batch, claims, SaturatingAdd(moment.now, leaseNanos));
      done := match held case Ok(renewed) => Ok(Claims(renewed)) case Err(error) => Err(error);
    case ReleaseClaim(claim) =>
      done := Release(batch, claim);
    case HandingOn(handOn) =>
      var yes := DoHandOn(batch, handOn, moment.now);
      done := match yes case Ok(took) => Ok(Yes(took)) case Err(error) => Err(error);
    case Turning(turn) =>
      done := DoTurn(batch, turn, moment.now);
    case Publishing(publication) =>
      done, audits := DoPublish(batch, next, publication, moment);
    case Replaying(replay) =>
      done, audits := DoReplay(batch, next, replay);
    case WriteAudit(entry) =>
      AddsOne(batch.View(), PutAudit(next, entry));
      batch.Put(AuditAt(next), Some(AuditV(entry)));
      done, audits := Ok(Written), 1;
    case ForgetAudit(number) =>
      done := Forgotten(batch, number);
  }
}
