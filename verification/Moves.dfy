/** A hand-on moves the Messages it names from and to the queues it names, and no other
    (`hand_on.rs`, `claim.rs`, `hand_on`). */
module Moves {
  import opened Wrappers
  import opened Records
  import opened Queues
  import opened Holds
  import opened Steps
  import opened Operations
  import opened Shapes
  import opened Frames
  import opened Lines
  import opened Spots
  import opened Conserved
  import opened Once
  import opened Repeats
  import opened Turns
  import Origins

  predicate Named(holds: seq<Hold>, queue: Id, journey: Id) {
    exists hold | hold in holds :: hold.queue == queue && hold.journey == journey
  }

  /** The first of `holds` that names it. */
  function FirstNamed(holds: seq<Hold>, queue: Id, journey: Id): Hold
    requires Named(holds, queue, journey)
    decreases |holds|
  {
    if holds[0].queue == queue && holds[0].journey == journey then holds[0]
    else
      assert Named(holds[1..], queue, journey) by {
        var hold :| hold in holds && hold.queue == queue && hold.journey == journey;
        assert hold in holds[1..];
      }
      FirstNamed(holds[1..], queue, journey)
  }

  // ---- Each part of a hand-on. ----

  /** A step of no queue but the places its count lets go of. */
  predicate Beside(step: Step) {
    step.Count? || step.PutJourney? || step.PutMessage? || step.SetClaim?
  }

  /** Among `steps` a holder's last Journey is counted closed, and its place in `queue` let go. */
  predicate Releases(db: Db, steps: seq<Step>, queue: Id, journey: Id)
    decreases |steps|
  {
    steps != []
    && (StepReleases(db, steps[0], queue, journey)
        || (DoStep(db, steps[0]).Ok? && Releases(DoStep(db, steps[0]).value, steps[1..], queue, journey)))
  }

  lemma {:induction false} BesideRun(db: Db, steps: seq<Step>, queue: Id, journey: Id)
    requires Sound(db) && forall step | step in steps :: Beside(step)
    ensures var spot := SpotOf(db, queue, journey);
            Landed(RunSteps(db, steps), queue, journey)
            == Some(if Releases(db, steps, queue, journey) then spot.(held := None) else spot)
    decreases |steps|
  {
    hide StepReleases, CountReleases;
    if steps != [] {
      assert steps[0] in steps;
      StepTyped(db, steps[0]);
      BesideOne(db, steps[0], queue, journey);
      BesideRun(DoStep(db, steps[0]).value, steps[1..], queue, journey);
    }
  }

  lemma BesideOne(db: Db, step: Step, queue: Id, journey: Id)
    requires Sound(db) && Beside(step)
    ensures var spot := SpotOf(db, queue, journey);
            Landed(DoStep(db, step), queue, journey)
            == Some(if StepReleases(db, step, queue, journey) then spot.(held := None) else spot)
  {
    StepTyped(db, step);
    if step.Count? {
      CountSpots(db, step.record, step.places, queue, journey);
    } else {
      BesideSpots(db, DoStep(db, step).value, queue, journey);
    }
  }

  lemma {:induction false} LeavesRun(db: Db, queues: seq<Id>, j: Id, queue: Id, journey: Id)
    requires Sound(db)
    ensures var spot := SpotOf(db, queue, journey);
            Landed(RunSteps(db, LeaveSteps(queues, j)), queue, journey)
            == Some(if journey == j && queue in queues then spot.(held := None) else spot)
    decreases |queues|
  {
    if queues != [] {
      assert LeaveSteps(queues, j)[1..] == LeaveSteps(queues[1..], j);
      assert LeaveSteps(queues, j)[0] == Leave(queues[0], j);
      LeaveSpots(db, queues[0], j, queue, journey);
      LeavesRun(LetGoOf(db, queues[0], j).value, queues[1..], j, queue, journey);
      assert queue in queues <==> queue == queues[0] || queue in queues[1..];
    }
  }

  lemma {:induction false} JoinsRun(db: Db, holds: seq<Hold>, queue: Id, journey: Id)
    requires Sound(db)
    ensures var after := RunSteps(db, JoinSteps(holds)); var was := HeldOf(db, queue, journey);
            && after.Ok? && Sound(after.value)
            && FailedOf(after.value, queue, journey) == FailedOf(db, queue, journey)
            && NextOf(after.value, HeldLine, queue) >= NextOf(db, HeldLine, queue)
            && (was.Some? || !Named(holds, queue, journey) ==> HeldOf(after.value, queue, journey) == was)
            && (was.None? && Named(holds, queue, journey) ==>
                  var held := HeldOf(after.value, queue, journey);
                  && held.Some? && held.value.sequence >= NextOf(db, HeldLine, queue)
                  && held.value == Held(held.value.sequence, FirstNamed(holds, queue, journey), false, None))
    decreases |holds|
  {
    if holds != [] {
      assert JoinSteps(holds)[1..] == JoinSteps(holds[1..]) && JoinSteps(holds)[0] == Join(holds[0]);
      KeepSpots(db, holds[0], queue, journey);
      JoinsRun(Holds.Keep(db, holds[0]).value, holds[1..], queue, journey);
      NamedFirst(holds, queue, journey);
    }
  }

  lemma NamedFirst(holds: seq<Hold>, queue: Id, journey: Id)
    requires holds != []
    ensures Named(holds, queue, journey) <==>
              (holds[0].queue == queue && holds[0].journey == journey) || Named(holds[1..], queue, journey)
  {
    if hold :| hold in holds && hold.queue == queue && hold.journey == journey {
      assert hold == holds[0] || hold in holds[1..];
    }
  }

  lemma {:induction false} EndsRun(db: Db, queues: seq<Id>, j: Id, queue: Id, journey: Id)
    requires Sound(db)
    ensures var after := RunSteps(db, EndSteps(queues, j)); var was := HeldOf(db, queue, journey);
            && after.Ok? && Sound(after.value)
            && FailedOf(after.value, queue, journey) == FailedOf(db, queue, journey)
            && NextOf(after.value, HeldLine, queue) >= NextOf(db, HeldLine, queue)
            && (journey != j || was.None? || queue !in queues ==> HeldOf(after.value, queue, journey) == was)
            && (journey == j && was.Some? && queue in queues ==>
                  var held := HeldOf(after.value, queue, journey);
                  && held.Some? && held.value.sequence >= NextOf(db, HeldLine, queue)
                  && held.value == Held(held.value.sequence, was.value.hold, false, None))
    decreases |queues|
  {
    if queues != [] {
      assert EndSteps(queues, j)[1..] == EndSteps(queues[1..], j) && EndSteps(queues, j)[0] == MoveToEnd(queues[0], j);
      EndSpots(db, queues[0], j, queue, journey);
      EndsRun(ToTheEnd(db, queues[0], j).value, queues[1..], j, queue, journey);
      assert queue in queues <==> queue == queues[0] || queue in queues[1..];
    }
  }

  lemma {:induction false} UnfailsRun(db: Db, queues: seq<Id>, j: Id, queue: Id, journey: Id)
    requires Sound(db)
    ensures var spot := SpotOf(db, queue, journey);
            var held := if spot.held.Some? && spot.held.value.failed then Some(Marked(spot.held.value, false)) else spot.held;
            Landed(RunSteps(db, UnfailSteps(queues, j)), queue, journey)
            == Some(if journey == j && queue in queues then spot.(held := held, failed := None) else spot)
    decreases |queues|
  {
    if queues != [] {
      assert UnfailSteps(queues, j)[1..] == UnfailSteps(queues[1..], j);
      assert UnfailSteps(queues, j)[0] == Unfail(queues[0], j);
      UnfailSpots(db, queues[0], j, queue, journey);
      UnfailsRun(Clear(db, queues[0], j).value, queues[1..], j, queue, journey);
      assert queue in queues <==> queue == queues[0] || queue in queues[1..];
    }
  }

  // ---- A hand-on whole: how it finds a Message, and how it leaves it. ----

  function Wrote(h: HandOn): seq<Step> {
    CountSteps([h.result], h.queued) + (MessageSteps(h.messages) + CountSteps(h.next, h.queued))
  }

  function Moved(h: HandOn): seq<Step> {
    LeaveSteps(h.leaves, h.claim.journey) + (JoinSteps(h.queued) + EndSteps(h.requeued, h.claim.journey))
  }

  function Stands(h: HandOn, now: int): seq<Step> {
    FailSteps(h, now) + (UnfailSteps(h.cleared, h.claim.journey) + WaitSteps(h, now))
  }

  lemma {:induction false} CountsBeside(records: seq<JourneyRecord>, places: seq<Hold>)
    ensures forall step | step in CountSteps(records, places) :: Beside(step)
    decreases |records|
  {
    if records != [] {
      CountsBeside(records[1..], places);
    }
  }

  /** The records a hand-on writes close the last Journey of the holder `journey`, which holds a
      place in `queue`: its place is let go of, unnamed. */
  predicate LetsGo(db: Db, h: HandOn, queue: Id, journey: Id) {
    Releases(db, Wrote(h), queue, journey)
  }

  /** `journey` in `queue` as it was, but for that. */
  function Stayed(db: Db, h: HandOn, queue: Id, journey: Id): Option<Held> {
    if LetsGo(db, h, queue, journey) then None else HeldOf(db, queue, journey)
  }

  lemma WroteBeside(db: Db, h: HandOn, queue: Id, journey: Id)
    requires Sound(db)
    ensures Landed(RunSteps(db, Wrote(h)), queue, journey)
         == Some(SpotOf(db, queue, journey).(held := Stayed(db, h, queue, journey)))
  {
    CountsBeside([h.result], h.queued);
    CountsBeside(h.next, h.queued);
    forall step | step in Wrote(h) ensures Beside(step) {
      if step in CountSteps([h.result], h.queued) {
      } else if step in CountSteps(h.next, h.queued) {
      } else {
      }
    }
    BesideRun(db, Wrote(h), queue, journey);
  }

  /** Where `journey` waits in `queue` once the hand-on has moved what it names. */
  ghost predicate MovedSpot(h: HandOn, queue: Id, journey: Id, was: Option<Held>, next: nat, held: Option<Held>) {
    var leaves := journey == h.claim.journey && queue in h.leaves;
    var requeued := journey == h.claim.journey && queue in h.requeued;
    var stays := was.Some? && !leaves;
    && (held.Some? <==> stays || Named(h.queued, queue, journey))
    && (stays && !requeued ==> held == was)
    && (stays && requeued ==> held.value == Held(held.value.sequence, was.value.hold, false, None))
    && (held.Some? && !stays ==>
          held.value == Held(held.value.sequence, FirstNamed(h.queued, queue, journey), false, None))
    && (held.Some? && (!stays || requeued) ==> held.value.sequence >= next)
  }

  lemma MovedBeside(db: Db, h: HandOn, queue: Id)
    ensures RunSteps(db, Moved(h)).Ok? ==>
              NextOf(RunSteps(db, Moved(h)).value, FailedLine, queue) == NextOf(db, FailedLine, queue)
  {
    hide RunSteps;
    assert NoneWrites(Moved(h), PlacesAt(FailedLine, queue));
    if RunSteps(db, Moved(h)).Ok? {
      RunLeaves(db, Moved(h), PlacesAt(FailedLine, queue));
    }
  }

  lemma MovedRun(db: Db, h: HandOn, queue: Id, journey: Id)
    requires Sound(db)
    ensures var after := RunSteps(db, Moved(h));
            && after.Ok? && Sound(after.value)
            && MovedSpot(h, queue, journey, HeldOf(db, queue, journey), NextOf(db, HeldLine, queue),
                         HeldOf(after.value, queue, journey))
            && FailedOf(after.value, queue, journey) == FailedOf(db, queue, journey)
            && NextOf(after.value, FailedLine, queue) == NextOf(db, FailedLine, queue)
  {
    var j := h.claim.journey;
    MovedBeside(db, h, queue);
    RunAppended(db, LeaveSteps(h.leaves, j), JoinSteps(h.queued) + EndSteps(h.requeued, j));
    LeavesRun(db, h.leaves, j, queue, journey);
    var left := RunSteps(db, LeaveSteps(h.leaves, j)).value;
    RunAppended(left, JoinSteps(h.queued), EndSteps(h.requeued, j));
    JoinsRun(left, h.queued, queue, journey);
    var joined := RunSteps(left, JoinSteps(h.queued)).value;
    EndsRun(joined, h.requeued, j, queue, journey);
  }

  /** The hand-on's Message, moved to the end, waits after every other. */
  lemma RequeuedLast(db: Db, h: HandOn, queue: Id, other: Id)
    requires Sound(db) && other != h.claim.journey && queue in h.requeued
    ensures var after := RunSteps(db, Moved(h)); var j := h.claim.journey;
            && after.Ok?
            && (HeldOf(after.value, queue, j).Some? && HeldOf(after.value, queue, other).Some? ==>
                  HeldOf(after.value, queue, other).value.sequence < HeldOf(after.value, queue, j).value.sequence)
  {
    var j := h.claim.journey;
    RunAppended(db, LeaveSteps(h.leaves, j), JoinSteps(h.queued) + EndSteps(h.requeued, j));
    LeavesRun(db, h.leaves, j, queue, j);
    var left := RunSteps(db, LeaveSteps(h.leaves, j)).value;
    RunAppended(left, JoinSteps(h.queued), EndSteps(h.requeued, j));
    JoinsRun(left, h.queued, queue, j);
    var joined := RunSteps(left, JoinSteps(h.queued)).value;
    EndsRun(joined, h.requeued, j, queue, j);
    EndsRun(joined, h.requeued, j, queue, other);
    HeldIsPlaced(joined, queue, other);
  }

  /** How it stands there once failed, cleared or left waiting, moved no more. */
  function StoodHeld(h: HandOn, now: int, queue: Id, journey: Id, moved: Option<Held>): Option<Held> {
    var ours := journey == h.claim.journey;
    if moved.None? || !ours then moved
    else
      var marked := if h.failed.Some? && h.failed.value.queue == queue && !moved.value.failed
                    then Marked(moved.value, true) else moved.value;
      var cleared := if queue in h.cleared && marked.failed then Marked(marked, false) else marked;
      if h.waits.Some? && h.waits.value.queue == queue
      then Some(cleared.(due := Some(SaturatingAdd(now, h.waits.value.afterNanos)))) else Some(cleared)
  }

  /** Its entry in the index of failed Messages then: as it was, or at the index's next place. */
  function StoodFailed(h: HandOn, now: int, queue: Id, journey: Id, moved: Option<Held>, was: Option<FailedEntry>, next: nat)
    : Option<FailedEntry>
  {
    var ours := journey == h.claim.journey;
    if ours && queue in h.cleared then None
    else if was.Some? then was
    else if ours && h.failed.Some? && h.failed.value.queue == queue && moved.Some? then
      Some(FailedEntry(queue, next, journey, moved.value.sequence, h.failed.value.reason, now))
    else None
  }

  function PlaceOf(failed: Option<FailedEntry>): Option<nat> {
    if failed.None? then None else Some(failed.value.place)
  }

  lemma FailRun(db: Db, h: HandOn, now: int, queue: Id, journey: Id)
    requires Sound(db)
    ensures var after := RunSteps(db, FailSteps(h, now)); var was := HeldOf(db, queue, journey);
            var fails := journey == h.claim.journey && h.failed.Some? && h.failed.value.queue == queue && was.Some?;
            && after.Ok? && Sound(after.value)
            && HeldOf(after.value, queue, journey)
               == (if fails && !was.value.failed then Some(Marked(was.value, true)) else was)
            && FailedOf(after.value, queue, journey)
               == (if fails && FailedOf(db, queue, journey).None? then
                     Some(FailedEntry(queue, NextOf(db, FailedLine, queue), journey, was.value.sequence, h.failed.value.reason, now))
                   else FailedOf(db, queue, journey))
  {
    if h.failed.Some? {
      var step := Fail(h.claim.journey, h.failed.value, now);
      StepTyped(db, step);
      FailSpots(db, h.claim.journey, h.failed.value, now, queue, journey);
      assert [step][1..] == [];
      RunsNone(DoStep(db, step).value);
    } else {
      RunsNone(db);
    }
  }

  lemma WaitRun(db: Db, h: HandOn, now: int, queue: Id, journey: Id)
    requires Sound(db)
    ensures var after := RunSteps(db, WaitSteps(h, now)); var was := HeldOf(db, queue, journey);
            var waits := journey == h.claim.journey && h.waits.Some? && h.waits.value.queue == queue && was.Some?;
            && after.Ok? && Sound(after.value)
            && FailedOf(after.value, queue, journey) == FailedOf(db, queue, journey)
            && HeldOf(after.value, queue, journey)
               == (if waits then Some(was.value.(due := Some(SaturatingAdd(now, h.waits.value.afterNanos)))) else was)
  {
    if h.waits.Some? {
      var due := SaturatingAdd(now, h.waits.value.afterNanos);
      var step := Defer(h.waits.value.queue, h.claim.journey, due);
      DeferSpots(db, h.waits.value.queue, h.claim.journey, due, queue, journey);
      assert [step][1..] == [];
      RunsNone(DoStep(db, step).value);
    } else {
      RunsNone(db);
    }
  }

  lemma StandsRun(db: Db, h: HandOn, now: int, queue: Id, journey: Id)
    requires Sound(db)
    ensures var after := RunSteps(db, Stands(h, now)); var was := HeldOf(db, queue, journey);
            && after.Ok? && Sound(after.value)
            && HeldOf(after.value, queue, journey) == StoodHeld(h, now, queue, journey, was)
            && FailedOf(after.value, queue, journey)
               == StoodFailed(h, now, queue, journey, was, FailedOf(db, queue, journey), NextOf(db, FailedLine, queue))
  {
    var j := h.claim.journey;
    RunAppended(db, FailSteps(h, now), UnfailSteps(h.cleared, j) + WaitSteps(h, now));
    FailRun(db, h, now, queue, journey);
    var failed := RunSteps(db, FailSteps(h, now)).value;
    RunAppended(failed, UnfailSteps(h.cleared, j), WaitSteps(h, now));
    UnfailsRun(failed, h.cleared, j, queue, journey);
    WaitRun(RunSteps(failed, UnfailSteps(h.cleared, j)).value, h, now, queue, journey);
  }

  /** A hand-on that took effect, part by part. */
  lemma HandOnRuns(ledger: Ledger, h: HandOn, moment: Moment) returns (wrote: Db, there: Db, stood: Db)
    requires Sound(ledger.db) && TookEffect(ledger, h, moment)
    ensures RunSteps(ledger.db, Wrote(h)) == Ok(wrote) && Sound(wrote)
    ensures RunSteps(wrote, Moved(h)) == Ok(there) && Sound(there)
    ensures RunSteps(there, Stands(h, moment.now)) == Ok(stood) && Sound(stood)
    ensures var last := LastStep(h, StoredOn(ledger.db, h.claim.journey).value.value.claim, moment.now);
            RunSteps(stood, [last]) == Ok(After(ledger, HandingOn(h), moment).db)
  {
    hide RunSteps, HandOnSteps, Sound, Wrote, Moved, Stands, MovedSpot, HeldOf, FailedOf, StoodHeld, StoodFailed;
    var held := StoredOn(ledger.db, h.claim.journey).value.value.claim;
    var last := LastStep(h, held, moment.now);
    PartsOf(h, held, moment.now);
    RunAppended(ledger.db, Wrote(h), Moved(h) + (Stands(h, moment.now) + [last]));
    WroteSound(ledger.db, h);
    wrote := RunSteps(ledger.db, Wrote(h)).value;
    RunAppended(wrote, Moved(h), Stands(h, moment.now) + [last]);
    MovedRun(wrote, h, 0, 0);
    there := RunSteps(wrote, Moved(h)).value;
    RunAppended(there, Stands(h, moment.now), [last]);
    StandsRun(there, h, moment.now, 0, 0);
    stood := RunSteps(there, Stands(h, moment.now)).value;
  }

  lemma EndsBeside(db: Db, h: HandOn, held: Claim, now: int, queue: Id, journey: Id)
    requires Sound(db)
    ensures var after := RunSteps(db, [LastStep(h, held, now)]);
            && after.Ok? && HeldOf(after.value, queue, journey) == HeldOf(db, queue, journey)
            && FailedOf(after.value, queue, journey) == FailedOf(db, queue, journey)
  {
    BesideRun(db, [LastStep(h, held, now)], queue, journey);
  }

  /** What a hand-on that took effect leaves of `journey` in `queue`. */
  lemma HandOnSpot(ledger: Ledger, h: HandOn, moment: Moment, queue: Id, journey: Id)
    returns (moved: Option<Held>)
    requires Sound(ledger.db) && TookEffect(ledger, h, moment)
    ensures var after := After(ledger, HandingOn(h), moment).db;
            && MovedSpot(h, queue, journey, Stayed(ledger.db, h, queue, journey), NextOf(ledger.db, HeldLine, queue), moved)
            && HeldOf(after, queue, journey) == StoodHeld(h, moment.now, queue, journey, moved)
            && FailedOf(after, queue, journey)
               == StoodFailed(h, moment.now, queue, journey, moved, FailedOf(ledger.db, queue, journey),
                              NextOf(ledger.db, FailedLine, queue))
  {
    hide RunSteps, HandOnSteps, Sound, Wrote, Moved, Stands, MovedSpot, HeldOf, FailedOf, NextOf;
    hide StoodHeld, StoodFailed, LetsGo, TookEffect;
    var held := StoredClaim(ledger, h, moment);
    var wrote, there, stood := HandOnRuns(ledger, h, moment);
    WroteBeside(ledger.db, h, queue, journey);
    MovedRun(wrote, h, queue, journey);
    StandsRun(there, h, moment.now, queue, journey);
    EndsBeside(stood, h, held, moment.now, queue, journey);
    moved := HeldOf(there, queue, journey);
  }

  lemma StoredClaim(ledger: Ledger, h: HandOn, moment: Moment) returns (held: Claim)
    requires TookEffect(ledger, h, moment)
    ensures StoredOn(ledger.db, h.claim.journey).Ok? && StoredOn(ledger.db, h.claim.journey).value.Some?
    ensures held == StoredOn(ledger.db, h.claim.journey).value.value.claim
  {
    held := StoredOn(ledger.db, h.claim.journey).value.value.claim;
  }

  lemma PartsOf(h: HandOn, held: Claim, now: int)
    ensures HandOnSteps(h, held, now) == Wrote(h) + (Moved(h) + (Stands(h, now) + [LastStep(h, held, now)]))
  {
  }

  /** A queue loses the Message the hand-on leaves it with, and the places of the holders whose
      last open Journey its records close, and no other; it gains those it names as queued and
      no other. Every other Message keeps its place and all kept there; one that joins takes a
      place after all the queue held; the hand-on's own, moved to the end, keeps what its place
      kept. */
  lemma HandOnConserves(ledger: Ledger, h: HandOn, moment: Moment, queue: Id, journey: Id)
    requires Sound(ledger.db) && TookEffect(ledger, h, moment)
    ensures var was := HeldOf(ledger.db, queue, journey);
            var now := HeldOf(After(ledger, HandingOn(h), moment).db, queue, journey);
            var ours := journey == h.claim.journey;
            var goes := (ours && queue in h.leaves) || LetsGo(ledger.db, h, queue, journey);
            && (now.Some? <==> Named(h.queued, queue, journey) || (was.Some? && !goes))
            && (was.Some? && !ours && !goes ==> now == was)
            && (was.Some? && ours && !goes ==>
                  && now.value.hold == was.value.hold
                  && (queue !in h.requeued ==> now.value.sequence == was.value.sequence))
            && (now.Some? && (was.None? || goes || (ours && queue in h.requeued)) ==>
                  now.value.sequence >= NextOf(ledger.db, HeldLine, queue))
            && (now.Some? && (was.None? || goes) ==> now.value.hold == FirstNamed(h.queued, queue, journey))
  {
    var moved := HandOnSpot(ledger, h, moment, queue, journey);
  }

  const CLOSING := JourneyRecord(2, "", Some(9), false, None, false)

  /** A hand-on that names no queue, and closes the last open Journey of the holder 9. */
  const CLOSES := HandOn(Claim(2, "", 3, 0, 1), CLOSING, [], [], [], [], [], None, [], None, None)

  /** A database where 9 holds a place in the queue 1 for that Journey. */
  function HolderDb(): Db {
    map[JourneyAt(2) := JourneyV(CLOSING.(open := true)), ClaimOn(2) := ClaimV(Stored(CLOSES.claim, Holding)),
        OriginOf(9) := OriginV(Origin(1, [1])),
        Entry(HeldLine, 1, 0) := HeldV(Held(0, Hold(1, 9, ""), false, None)),
        By(HeldLine, 1, 9) := PlaceV(0), PlacesAt(HeldLine, 1) := PlacesV(Places(0, 1, 1))]
  }

  lemma CloseReleases()
    ensures StepReleases(HolderDb(), Count(CLOSING, []), 1, 9)
  {
    var before := CLOSING.(open := true);
    assert Origins.JourneyOf(HolderDb(), 2) == Ok(Some(before));
    assert Origins.WasOrigin(Some(before), CLOSING);
    assert Origins.WithQueues([1], [], 9) == [1];
    assert RoleReleases(HolderDb(), true, Some(9), false, [], 1, 9);
  }

  /** A place that no step names leaves its queue: the hand-on's result closes the last open
      Journey of the holder the place is held for. */
  lemma UnnamedLeaves()
    ensures Sound(HolderDb()) && TookEffect(Ledger(HolderDb(), 0), CLOSES, Moment(0, 0))
    ensures HeldOf(HolderDb(), 1, 9).Some? && CLOSES.claim.journey != 9 && CLOSES.leaves == []
    ensures HeldOf(After(Ledger(HolderDb(), 0), HandingOn(CLOSES), Moment(0, 0)).db, 1, 9).None?
  {
    var db := HolderDb();
    OnePlaceSound(db, 1, 9);
    assert StoredOn(db, 2) == Ok(Some(Stored(CLOSES.claim, Holding)));
    CloseReleases();
    hide Sound, StepReleases, RunSteps, HandOnSteps, TookEffect, HolderDb;
    HandOnTakes(Ledger(db, 0), CLOSES, Moment(0, 0));
    assert Wrote(CLOSES)[0] == Count(CLOSING, []);
    HandOnConserves(Ledger(db, 0), CLOSES, Moment(0, 0), 1, 9);
  }

  lemma HandOnTakes(ledger: Ledger, h: HandOn, moment: Moment)
    requires Sound(ledger.db) && StoredOn(ledger.db, h.claim.journey) == Ok(Some(Stored(h.claim, Holding)))
    ensures TookEffect(ledger, h, moment)
  {
    hide HandOnSteps, RunSteps;
    HandOnTakesNoDead(ledger.db, h, moment.now);
    RunSound(ledger.db, HandOnSteps(h, h.claim, moment.now));
  }

  lemma OnePlaceSound(db: Db, queue: Id, holder: Id)
    requires Typed(db) && HeldOf(db, queue, holder) == Some(Held(0, Hold(queue, holder, ""), false, None))
    requires forall key | key in db && (key.Entry? || key.By? || key.PlacesAt?) ::
               key == Entry(HeldLine, queue, 0) || key == By(HeldLine, queue, holder) || key == PlacesAt(HeldLine, queue)
    requires Read(db, PlacesAt(HeldLine, queue)) == Some(PlacesV(Places(0, 1, 1)))
    ensures Sound(db)
  {
    forall kind, q ensures LineOk(db, kind, q) {
      if kind == HeldLine && q == queue {
        forall p: nat ensures p in PlacesIn(db.Keys, kind, q) <==> p == 0 {
          InPlaces(db.Keys, kind, q, p);
        }
        assert PlacesIn(db.Keys, kind, q) == {0};
      } else {
        forall p: nat ensures p !in PlacesIn(db.Keys, kind, q) {
          InPlaces(db.Keys, kind, q, p);
        }
        assert PlacesIn(db.Keys, kind, q) == {};
      }
    }
  }

  /** Moved to the end, the hand-on's Message is the last of its queue. */
  lemma HandOnRequeues(ledger: Ledger, h: HandOn, moment: Moment, queue: Id, other: Id)
    requires Sound(ledger.db) && TookEffect(ledger, h, moment)
    requires other != h.claim.journey && queue in h.requeued
    ensures var after := After(ledger, HandingOn(h), moment).db;
            var ours := HeldOf(after, queue, h.claim.journey); var theirs := HeldOf(after, queue, other);
            ours.Some? && theirs.Some? ==> theirs.value.sequence < ours.value.sequence
  {
    hide RunSteps, HandOnSteps, Sound, Wrote, Moved, Stands, MovedSpot, HeldOf, FailedOf, NextOf, StoodFailed, TookEffect;
    var held := StoredClaim(ledger, h, moment);
    var wrote, there, stood := HandOnRuns(ledger, h, moment);
    RequeuedLast(wrote, h, queue, other);
    StandsRun(there, h, moment.now, queue, other);
    StandsRun(there, h, moment.now, queue, h.claim.journey);
    EndsBeside(stood, h, held, moment.now, queue, other);
    EndsBeside(stood, h, held, moment.now, queue, h.claim.journey);
  }

  lemma WroteSound(db: Db, h: HandOn)
    requires Sound(db)
    ensures RunSteps(db, Wrote(h)).Ok? && Sound(RunSteps(db, Wrote(h)).value)
  {
    CountStepsAre([h.result], h.queued);
    CountStepsAre(h.next, h.queued);
    forall step | step in Wrote(h) ensures !step.TakeDead? {
      if step in CountSteps([h.result], h.queued) {
      } else if step in CountSteps(h.next, h.queued) {
      } else {
      }
    }
    RunSound(db, Wrote(h));
  }

  // ---- The index of failed Messages. ----

  /** In the index where, and only where, it is marked failed in its queue, at its place. */
  predicate Agrees(db: Db, queue: Id, journey: Id) {
    var held := HeldOf(db, queue, journey);
    PlaceOf(FailedOf(db, queue, journey))
    == if held.Some? && held.value.failed then Some(held.value.sequence) else None
  }

  /** Failed, it waits for no retry. */
  predicate Quiet(db: Db, queue: Id, journey: Id) {
    var held := HeldOf(db, queue, journey);
    held.Some? && held.value.failed ==> held.value.due.None?
  }

  /** The hand-on takes its Message out of its place in `queue`, or moves it, or lets go of it. */
  predicate Unplaces(db: Db, h: HandOn, queue: Id, journey: Id) {
    || (journey == h.claim.journey && (queue in h.leaves || queue in h.requeued))
    || LetsGo(db, h, queue, journey)
  }

  /** A Message in the index stays in agreement with it where, and only where, the hand-on that
      takes it out of its place, moves it or lets go of it takes it out of the index too. */
  lemma HandOnAgrees(ledger: Ledger, h: HandOn, moment: Moment, queue: Id, journey: Id)
    requires Sound(ledger.db) && TookEffect(ledger, h, moment) && Agrees(ledger.db, queue, journey)
    ensures Agrees(After(ledger, HandingOn(h), moment).db, queue, journey) <==>
              FailedOf(ledger.db, queue, journey).None? || !Unplaces(ledger.db, h, queue, journey)
              || (journey == h.claim.journey && queue in h.cleared)
  {
    HeldIsPlaced(ledger.db, queue, journey);
    var moved := HandOnSpot(ledger, h, moment, queue, journey);
  }

  /** The hand-on leaves its Message waiting for a retry where it is failed, or fails it. */
  predicate WaitsFailed(db: Db, h: HandOn, queue: Id, journey: Id) {
    var was := HeldOf(db, queue, journey);
    var stays := was.Some? && queue !in h.leaves && !LetsGo(db, h, queue, journey);
    var fails := h.failed.Some? && h.failed.value.queue == queue && (stays || Named(h.queued, queue, journey));
    var failed := stays && was.value.failed && queue !in h.requeued;
    && journey == h.claim.journey && h.waits.Some? && h.waits.value.queue == queue && queue !in h.cleared && (fails || failed)
  }

  /** A Message marked failed keeps no due time where, and only where, no hand-on leaves it
      waiting for a retry in the queue it stays or becomes failed in. */
  lemma HandOnQuiet(ledger: Ledger, h: HandOn, moment: Moment, queue: Id, journey: Id)
    requires Sound(ledger.db) && TookEffect(ledger, h, moment) && Quiet(ledger.db, queue, journey)
    ensures Quiet(After(ledger, HandingOn(h), moment).db, queue, journey) <==> !WaitsFailed(ledger.db, h, queue, journey)
  {
    var moved := HandOnSpot(ledger, h, moment, queue, journey);
  }

  // ---- Over whole runs. ----

  /** A step that changes nothing that waits or failed. */
  predicate OfNoQueue(step: Step) {
    !step.Count? && !step.Leave? && !step.Join? && !step.MoveToEnd? && !step.Fail? && !step.Unfail? && !step.Defer?
  }

  lemma LastBeside(db: Db, steps: seq<Step>, queue: Id, journey: Id)
    requires RunSteps(db, steps).Ok? && forall step | step in steps :: OfNoQueue(step)
    ensures HeldOf(RunSteps(db, steps).value, queue, journey) == HeldOf(db, queue, journey)
    ensures FailedOf(RunSteps(db, steps).value, queue, journey) == FailedOf(db, queue, journey)
  {
    hide HeldOf, FailedOf, RunSteps;
    var after := RunSteps(db, steps).value;
    forall key | OfLine(key, HeldLine) || OfLine(key, FailedLine) ensures Read(db, key) == Read(after, key) {
      forall step | step in steps ensures !MayWrite(step, key) {
        assert OfNoQueue(step);
      }
      RunLeaves(db, steps, key);
    }
    assert SameLine(db, after, HeldLine, queue) && SameLine(db, after, FailedLine, queue);
    SameReads(db, after, queue, journey);
  }

  /** Journeys written and Messages queued with them: a place let go of, then one joined anew. */
  lemma OpensSpot(db: Db, records: seq<JourneyRecord>, holds: seq<Hold>, queue: Id, journey: Id)
    requires Sound(db)
    ensures var after := RunSteps(db, CountSteps(records, holds) + JoinSteps(holds));
            var gone := Releases(db, CountSteps(records, holds), queue, journey);
            var was := if gone then None else HeldOf(db, queue, journey);
            && after.Ok? && Sound(after.value)
            && FailedOf(after.value, queue, journey) == FailedOf(db, queue, journey)
            && var now := HeldOf(after.value, queue, journey);
            && (was.Some? ==> now == was)
            && (was.None? ==> (now.Some? <==> Named(holds, queue, journey)))
            && (was.None? && now.Some? ==>
                  && now.value == Held(now.value.sequence, FirstNamed(holds, queue, journey), false, None)
                  && now.value.sequence >= NextOf(db, HeldLine, queue))
  {
    var counts := CountSteps(records, holds);
    CountsBeside(records, holds);
    BesideRun(db, counts, queue, journey);
    RunAppended(db, counts, JoinSteps(holds));
    JoinsRun(RunSteps(db, counts).value, holds, queue, journey);
  }

  /** A Publication that is written, or a Replay that takes its entry out. */
  predicate Opens(ledger: Ledger, asked: Asked) {
    match asked.op
    case Publishing(p) => PublishedAt(p.message.message) !in ledger.db
    case Replaying(r) => Once.Replays(ledger, asked, r.queue, r.message)
    case _ => false
  }

  /** The places it has Messages queued at. */
  function Queued(op: Op): seq<Hold> {
    match op
    case Publishing(p) => p.held
    case Replaying(r) => r.held
    case _ => []
  }

  /** The records it opens let go of the place `journey` holds in `queue`. */
  predicate OpensLetGo(ledger: Ledger, asked: Asked, queue: Id, journey: Id) {
    && Opens(ledger, asked)
    && match asked.op
       case Publishing(p) =>
         Releases(ledger.db[MessageAt(p.message.message) := MessageV(p.message)], CountSteps(p.journeys, p.held), queue, journey)
       case Replaying(r) =>
         var take := TakeDead(r.queue, r.message, PlacedOf(ledger.db, DeadLine, r.queue, r.message).value.place);
         DoStep(ledger.db, take).Ok? && Releases(DoStep(ledger.db, take).value, CountSteps(r.journeys, r.held), queue, journey)
       case _ => false
  }

  /** What a Publication or a Replay leaves of a Message. */
  ghost predicate Opened(ledger: Ledger, asked: Asked, queue: Id, journey: Id) {
    var after := After(ledger, asked.op, asked.moment).db;
    var was := if OpensLetGo(ledger, asked, queue, journey) then None else HeldOf(ledger.db, queue, journey);
    var now := HeldOf(after, queue, journey);
    && FailedOf(after, queue, journey) == FailedOf(ledger.db, queue, journey)
    && (was.Some? ==> now == was)
    && (was.None? ==> (now.Some? <==> Opens(ledger, asked) && Named(Queued(asked.op), queue, journey)))
    && (was.None? && now.Some? ==>
          && now.value == Held(now.value.sequence, FirstNamed(Queued(asked.op), queue, journey), false, None)
          && now.value.sequence >= NextOf(ledger.db, HeldLine, queue))
  }

  lemma PublishDecides(ledger: Ledger, p: Publication, moment: Moment)
    requires Sound(ledger.db) && PublishedAt(p.message.message) !in ledger.db
    ensures RunSteps(ledger.db, PublishSteps(p, ledger.next, moment, SaturatingAdd(moment.now, p.leaseNanos)))
         == Ok(After(ledger, Publishing(p), moment).db)
  {
    DecideTyped(ledger, Publishing(p), moment);
    hide RunSteps, Sound, Grants, StillHeld, PublishSteps;
  }

  /** What a Publication writes once it opened its Journeys and queued its Messages. */
  function AfterOpening(p: Publication, next: nat, moment: Moment): seq<Step> {
    var dead: seq<Step> := if p.dead.None? then [] else [KeepDead(p.dead.value)];
    dead + (GrantSteps(p.claims, moment, SaturatingAdd(moment.now, p.leaseNanos)) + [PutPublished(p), PutAudit(next, p.audit)])
  }

  lemma PublishParts(p: Publication, next: nat, moment: Moment)
    ensures PublishSteps(p, next, moment, SaturatingAdd(moment.now, p.leaseNanos))
         == [PutMessage(p.message)] + ((CountSteps(p.journeys, p.held) + JoinSteps(p.held)) + AfterOpening(p, next, moment))
  {
  }

  lemma PublishOpens(ledger: Ledger, p: Publication, moment: Moment, queue: Id, journey: Id)
    requires Sound(ledger.db)
    ensures Opened(ledger, Asked(Publishing(p), moment), queue, journey)
  {
    hide RunSteps, Sound, Grants, StillHeld, HeldOf, FailedOf, Releases, PublishSteps, GrantSteps;
    if PublishedAt(p.message.message) in ledger.db {
      RunsNone(ledger.db);
    } else {
      PublishDecides(ledger, p, moment);
      PublishParts(p, ledger.next, moment);
      hide After;
      var put := ledger.db[MessageAt(p.message.message) := MessageV(p.message)];
      var opens, rest := CountSteps(p.journeys, p.held) + JoinSteps(p.held), AfterOpening(p, ledger.next, moment);
      RunsOne(ledger.db, PutMessage(p.message));
      StepSound(ledger.db, PutMessage(p.message));
      PutSpot(ledger.db, p.message, queue, journey);
      OpensSpot(put, p.journeys, p.held, queue, journey);
      RunAppended(ledger.db, [PutMessage(p.message)], opens + rest);
      RunAppended(put, opens, rest);
      RestBeside(RunSteps(put, opens).value, p, ledger.next, moment, queue, journey);
    }
  }

  lemma RestBeside(db: Db, p: Publication, next: nat, moment: Moment, queue: Id, journey: Id)
    requires Sound(db)
    ensures var after := RunSteps(db, AfterOpening(p, next, moment));
            && after.Ok?
            && HeldOf(after.value, queue, journey) == HeldOf(db, queue, journey)
            && FailedOf(after.value, queue, journey) == FailedOf(db, queue, journey)
  {
    var steps := AfterOpening(p, next, moment);
    forall step | step in steps ensures OfNoQueue(step) && !step.TakeDead? {
    }
    hide AfterOpening, HeldOf, FailedOf;
    RunSound(db, steps);
    LastBeside(db, steps, queue, journey);
  }

  lemma PutSpot(db: Db, message: MessageRecord, queue: Id, journey: Id)
    requires Sound(db) && Sound(db[MessageAt(message.message) := MessageV(message)])
    ensures var put := db[MessageAt(message.message) := MessageV(message)];
            HeldOf(put, queue, journey) == HeldOf(db, queue, journey) && FailedOf(put, queue, journey) == FailedOf(db, queue, journey)
            && NextOf(put, HeldLine, queue) == NextOf(db, HeldLine, queue)
  {
    BesideSpots(db, db[MessageAt(message.message) := MessageV(message)], queue, journey);
  }

  lemma RestSound(db: Db, steps: seq<Step>)
    requires Sound(db) && forall step | step in steps :: !step.TakeDead?
    ensures RunSteps(db, steps).Ok?
  {
    RunSound(db, steps);
  }

  lemma ReplayOpens(ledger: Ledger, r: Replay, moment: Moment, queue: Id, journey: Id)
    requires Sound(ledger.db)
    ensures Opened(ledger, Asked(Replaying(r), moment), queue, journey)
  {
    hide RunSteps, Sound, HeldOf, FailedOf, Releases;
    var plan := ReplayPlan(ledger.db, ledger.next, r);
    if plan.Ok? && plan.value.steps != [] {
      var place := PlacedOf(ledger.db, DeadLine, r.queue, r.message).value.place;
      var take := TakeDead(r.queue, r.message, place);
      var opens, last := CountSteps(r.journeys, r.held) + JoinSteps(r.held), [PutAudit(ledger.next, r.audit)];
      TakeDeadSpot(ledger.db, r, place, queue, journey);
      var taken := DoStep(ledger.db, take).value;
      RunsOne(ledger.db, take);
      OpensSpot(taken, r.journeys, r.held, queue, journey);
      var afterwards := RunSteps(taken, opens).value;
      RestSound(afterwards, last);
      LastBeside(afterwards, last, queue, journey);
      assert ReplaySteps(r, place, ledger.next) == [take] + (opens + last);
      RunAppended(ledger.db, [take], opens + last);
      RunAppended(taken, opens, last);
    } else if plan.Ok? {
      RunsNone(ledger.db);
    }
  }

  lemma TakeDeadSpot(db: Db, r: Replay, place: nat, queue: Id, journey: Id)
    requires Sound(db) && PlacedOf(db, DeadLine, r.queue, r.message) == Ok(AtPlace(place))
    ensures var take := DoStep(db, TakeDead(r.queue, r.message, place));
            && take.Ok? && Sound(take.value)
            && HeldOf(take.value, queue, journey) == HeldOf(db, queue, journey)
            && FailedOf(take.value, queue, journey) == FailedOf(db, queue, journey)
            && NextOf(take.value, HeldLine, queue) == NextOf(db, HeldLine, queue)
  {
    assert LineOk(db, DeadLine, r.queue);
    var take := TakeDead(r.queue, r.message, place);
    StepSound(db, take);
    var after := DoStep(db, take).value;
    forall key | OfLine(key, HeldLine) || OfLine(key, FailedLine) ensures Read(db, key) == Read(after, key) {
      StepLeaves(db, take, key);
    }
    assert SameLine(db, after, HeldLine, queue) && SameLine(db, after, FailedLine, queue);
    SameReads(db, after, queue, journey);
  }

  lemma TurnIsHandOn(ledger: Ledger, t: Turn, moment: Moment)
    requires Sound(ledger.db)
    ensures var turned := After(ledger, Turning(t), moment).db;
            if TurnTook(ledger, t, moment)
            then RunSteps(After(ledger, HandingOn(t.handOn), moment).db, TurnSteps(t)) == Ok(turned)
            else turned == ledger.db || RunSteps(ledger.db, TurnSteps(t)) == Ok(turned)
  {
    hide HandOnSteps, TurnSteps, Current;
    var plan := TurnPlan(ledger.db, t, moment.now);
    if plan.Ok? {
      RunsNone(ledger.db);
      var handOn := HandOnPlan(ledger.db, t.handOn, moment.now);
      if handOn.Ok? {
        RunAppended(ledger.db, handOn.value.steps, TurnSteps(t));
      }
    }
  }

  /** The hand-on an operation takes effect as: itself, or a turn's. */
  function HandsOn(ledger: Ledger, asked: Asked): Option<HandOn> {
    match asked.op
    case HandingOn(h) => if TookEffect(ledger, h, asked.moment) then Some(h) else None
    case Turning(t) => if TurnTook(ledger, t, asked.moment) then Some(t.handOn) else None
    case _ => None
  }

  /** Any other operation leaves every queue as it was but for what it opens. */
  lemma ElseOpens(ledger: Ledger, asked: Asked, queue: Id, journey: Id)
    requires Sound(ledger.db) && HandsOn(ledger, asked).None?
    ensures Opened(ledger, asked, queue, journey)
  {
    hide RunSteps, HandOnSteps, TurnSteps, Renewed, Current, Grants, StillHeld, HeldOf, FailedOf;
    match asked.op {
      case Publishing(p) => PublishOpens(ledger, p, asked.moment, queue, journey);
      case Replaying(r) => ReplayOpens(ledger, r, asked.moment, queue, journey);
      case HandingOn(h) =>
        if Decide(ledger, asked.op, asked.moment).Ok? {
          HandOnAnswers(ledger, h, asked.moment);
        }
      case Turning(t) =>
        TurnIsHandOn(ledger, t, asked.moment);
        TurnStepsAre(t);
        if RunSteps(ledger.db, TurnSteps(t)).Ok? {
          LastBeside(ledger.db, TurnSteps(t), queue, journey);
        }
      case _ =>
        var plan := PlanOf(ledger.db, ledger.next, asked.op, asked.moment);
        if plan.Ok? && RunSteps(ledger.db, plan.value.steps).Ok? {
          LastBeside(ledger.db, plan.value.steps, queue, journey);
        }
    }
  }

  /** A hand-on's effect on a Message is its turn's. */
  lemma HandsOnSpot(ledger: Ledger, asked: Asked, queue: Id, journey: Id)
    requires Sound(ledger.db) && HandsOn(ledger, asked).Some?
    ensures var h := HandsOn(ledger, asked).value;
            var after, handed := After(ledger, asked.op, asked.moment).db, After(ledger, HandingOn(h), asked.moment).db;
            && TookEffect(ledger, h, asked.moment)
            && HeldOf(after, queue, journey) == HeldOf(handed, queue, journey)
            && FailedOf(after, queue, journey) == FailedOf(handed, queue, journey)
  {
    hide HandOnSteps, TurnSteps, RunSteps, HeldOf, FailedOf;
    if asked.op.Turning? {
      var t := asked.op.turn;
      TurnIsHandOn(ledger, t, asked.moment);
      AfterSound(ledger, Asked(HandingOn(t.handOn), asked.moment));
      TurnStepsAre(t);
      LastBeside(After(ledger, HandingOn(t.handOn), asked.moment).db, TurnSteps(t), queue, journey);
    }
  }

  /** Exactly when an operation keeps a Message's mark and its index in agreement. */
  predicate KeepsAgreed(ledger: Ledger, asked: Asked, queue: Id, journey: Id) {
    || FailedOf(ledger.db, queue, journey).None?
    || match HandsOn(ledger, asked)
       case Some(h) => !Unplaces(ledger.db, h, queue, journey) || (journey == h.claim.journey && queue in h.cleared)
       case None => !OpensLetGo(ledger, asked, queue, journey)
  }

  lemma AfterAgrees(ledger: Ledger, asked: Asked, queue: Id, journey: Id)
    requires Sound(ledger.db) && Agrees(ledger.db, queue, journey)
    ensures Agrees(After(ledger, asked.op, asked.moment).db, queue, journey) <==> KeepsAgreed(ledger, asked, queue, journey)
  {
    hide Unplaces, OpensLetGo, After;
    match HandsOn(ledger, asked) {
      case Some(h) =>
        HandsOnSpot(ledger, asked, queue, journey);
        HandOnAgrees(ledger, h, asked.moment, queue, journey);
      case None =>
        ElseOpens(ledger, asked, queue, journey);
        HeldIsPlaced(ledger.db, queue, journey);
    }
  }

  /** Exactly when an operation leaves a Message that is marked failed with no due time. */
  predicate KeepsQuiet(ledger: Ledger, asked: Asked, queue: Id, journey: Id) {
    match HandsOn(ledger, asked)
    case Some(h) => !WaitsFailed(ledger.db, h, queue, journey)
    case None => true
  }

  lemma AfterQuiet(ledger: Ledger, asked: Asked, queue: Id, journey: Id)
    requires Sound(ledger.db) && Quiet(ledger.db, queue, journey)
    ensures Quiet(After(ledger, asked.op, asked.moment).db, queue, journey) <==> KeepsQuiet(ledger, asked, queue, journey)
  {
    hide WaitsFailed, OpensLetGo, After;
    match HandsOn(ledger, asked) {
      case Some(h) =>
        HandsOnSpot(ledger, asked, queue, journey);
        HandOnQuiet(ledger, h, asked.moment, queue, journey);
      case None =>
        ElseOpens(ledger, asked, queue, journey);
    }
  }

  /** At every point of the run. */
  predicate AgreesThroughout(ledger: Ledger, asked: seq<Asked>, queue: Id, journey: Id)
    decreases |asked|
  {
    && Agrees(ledger.db, queue, journey)
    && (asked == [] || AgreesThroughout(After(ledger, asked[0].op, asked[0].moment), asked[1..], queue, journey))
  }

  predicate AllKeepAgreed(ledger: Ledger, asked: seq<Asked>, queue: Id, journey: Id)
    decreases |asked|
  {
    asked == []
    || (KeepsAgreed(ledger, asked[0], queue, journey)
        && AllKeepAgreed(After(ledger, asked[0].op, asked[0].moment), asked[1..], queue, journey))
  }

  /** Throughout a run from any database in order and in agreement, a Message is in its queue's
      index of failed Messages exactly where it is marked failed there, at its place, if and only
      if no operation of the run takes it from its place, moves it or lets go of it while it is
      there, uncleared. */
  lemma {:induction false} RunsAgree(ledger: Ledger, asked: seq<Asked>, queue: Id, journey: Id)
    requires Sound(ledger.db) && Agrees(ledger.db, queue, journey)
    ensures AgreesThroughout(ledger, asked, queue, journey) <==> AllKeepAgreed(ledger, asked, queue, journey)
    decreases |asked|
  {
    hide Agrees, KeepsAgreed, Sound;
    if asked != [] {
      AfterAgrees(ledger, asked[0], queue, journey);
      AfterSound(ledger, asked[0]);
      var after := After(ledger, asked[0].op, asked[0].moment);
      if Agrees(after.db, queue, journey) {
        RunsAgree(after, asked[1..], queue, journey);
      }
    }
  }

  predicate QuietThroughout(ledger: Ledger, asked: seq<Asked>, queue: Id, journey: Id)
    decreases |asked|
  {
    && Quiet(ledger.db, queue, journey)
    && (asked == [] || QuietThroughout(After(ledger, asked[0].op, asked[0].moment), asked[1..], queue, journey))
  }

  predicate AllKeepQuiet(ledger: Ledger, asked: seq<Asked>, queue: Id, journey: Id)
    decreases |asked|
  {
    asked == []
    || (KeepsQuiet(ledger, asked[0], queue, journey)
        && AllKeepQuiet(After(ledger, asked[0].op, asked[0].moment), asked[1..], queue, journey))
  }

  /** Throughout a run a Message marked failed keeps no due time if and only if no hand-on of the
      run, and no turn's, leaves it waiting for a retry where it is failed. */
  lemma {:induction false} RunsQuiet(ledger: Ledger, asked: seq<Asked>, queue: Id, journey: Id)
    requires Sound(ledger.db) && Quiet(ledger.db, queue, journey)
    ensures QuietThroughout(ledger, asked, queue, journey) <==> AllKeepQuiet(ledger, asked, queue, journey)
    decreases |asked|
  {
    hide Quiet, KeepsQuiet, Sound;
    if asked != [] {
      AfterQuiet(ledger, asked[0], queue, journey);
      AfterSound(ledger, asked[0]);
      var after := After(ledger, asked[0].op, asked[0].moment);
      if Quiet(after.db, queue, journey) {
        RunsQuiet(after, asked[1..], queue, journey);
      }
    }
  }
}
