/** What each operation answers and leaves, read from the records it finds (`commit.rs`,
    `claim.rs`, `publication.rs`, `dead.rs`, `instance.rs`, `failed.rs`). */
module Answers {
  import opened Wrappers
  import opened Records
  import opened Queues
  import opened Steps
  import opened Operations
  import opened Shapes
  import opened Frames
  import opened Lines
  import opened Spots
  import opened Conserved
  import opened Once
  import opened Repeats
  import opened Turns
  import opened Moves
  import opened Effects
  import opened Claims
  import Writers

  // ---- The claims of a Publication. ----

  lemma {:induction false} HeldStays(db: Db, claims: seq<Claim>, moment: Moment, until: int, journey: Id)
    requires Typed(db) && !Unheld(db, journey, moment.now)
    ensures var after := RunSteps(db, GrantSteps(claims, moment, until));
            after.Ok? && Typed(after.value) && Last(after.value, journey) == Last(db, journey)
    ensures Grants(db, claims, moment, until).Ok?
    decreases |claims|
  {
    if claims == [] {
      RunsNone(db);
    } else {
      var steps := GrantSteps(claims, moment, until);
      assert steps[1..] == GrantSteps(claims[1..], moment, until);
      StoredIsLast(db, claims[0].journey);
      HeldStays(DoStep(db, steps[0]).value, claims[1..], moment, until, journey);
    }
  }

  lemma {:induction false} GrantsTake(db: Db, claims: seq<Claim>, moment: Moment, leaseNanos: nat, i: nat)
    returns (taken: Claim)
    requires Typed(db) && moment.now <= I128_MAX && i < |claims|
    requires forall j | 0 <= j < i :: claims[j].journey != claims[i].journey
    ensures var until := SaturatingAdd(moment.now, leaseNanos); var journey := claims[i].journey;
            var after := RunSteps(db, GrantSteps(claims, moment, until));
            var granted := Grants(db, claims, moment, until);
            && after.Ok? && granted.Ok?
            && (if Unheld(db, journey, moment.now) then
                  && IsTaken(taken, claims[i], Last(db, journey), moment.epoch, Later(moment.now, leaseNanos))
                  && taken in granted.value
                  && Last(after.value, journey) == Some(Stored(taken, Holding))
                else
                  && Last(after.value, journey) == Last(db, journey)
                  && (Last(db, journey).value.claim.token == claims[i].token ==>
                        Last(db, journey).value.claim in granted.value))
    decreases |claims|
  {
    hide IsTaken;
    var until := SaturatingAdd(moment.now, leaseNanos);
    var steps := GrantSteps(claims, moment, until);
    assert steps[1..] == GrantSteps(claims[1..], moment, until);
    assert steps[0] == GrantClaim(claims[0], moment.now, until, moment.epoch);
    StoredIsLast(db, claims[0].journey);
    var next := DoStep(db, steps[0]).value;
    if i == 0 {
      var last := Last(db, claims[0].journey);
      FencedNext(last, claims[0], moment.epoch, until);
      taken := claims[0].(fence := Fence(moment.epoch, last), until := until);
      HeldStays(next, claims[1..], moment, until, claims[0].journey);
    } else {
      taken := GrantsTake(next, claims[1..], moment, leaseNanos, i - 1);
    }
  }

  /** Of each Message a Publication asks a claim on: held by none, the claim first asked is taken,
      for its lease from now, answered and stored; held, it stays as it is, and is answered to its
      own token. */
  lemma PublicationTakes(ledger: Ledger, p: Publication, moment: Moment, i: nat) returns (taken: Claim)
    requires Sound(ledger.db) && Publishes(ledger, Asked(Publishing(p), moment), p.message.message)
    requires moment.now <= I128_MAX && i < |p.claims|
    requires forall j | 0 <= j < i :: p.claims[j].journey != p.claims[i].journey
    ensures Decide(ledger, Publishing(p), moment).value.done.Claims?
    ensures var journey := p.claims[i].journey; var last := Last(ledger.db, journey);
            var answered := Decide(ledger, Publishing(p), moment).value.done.claims;
            var after := Last(After(ledger, Publishing(p), moment).db, journey);
            if Unheld(ledger.db, journey, moment.now) then
              && IsTaken(taken, p.claims[i], last, moment.epoch, Later(moment.now, p.leaseNanos))
              && taken in answered && after == Some(Stored(taken, Holding))
            else after == last && (last.value.claim.token == p.claims[i].token ==> last.value.claim in answered)
  {
    hide RunSteps, Sound, PublicationSteps, StillHeld, IsTaken, Unheld;
    var until := SaturatingAdd(moment.now, p.leaseNanos);
    var grants, kept := GrantSteps(p.claims, moment, until), [PutPublished(p), PutAudit(ledger.next, p.audit)];
    RunAppended(ledger.db, PublicationSteps(p), grants + kept);
    var written := RunSteps(ledger.db, PublicationSteps(p)).value;
    RunAppended(written, grants, kept);
    PublicationDoes(ledger.db, p, 0);
    TypedSo(written);
    ClaimsBeside(ledger.db, p, p.claims[i].journey, moment.now);
    taken := GrantsTake(written, p.claims, moment, p.leaseNanos, i);
    KeptLast(RunSteps(written, grants).value, p, ledger.next);
  }

  lemma TypedSo(db: Db)
    requires Sound(db)
    ensures Typed(db)
  {
  }

  lemma ClaimsBeside(db: Db, p: Publication, journey: Id, now: int)
    requires RunSteps(db, PublicationSteps(p)).Ok?
    ensures Last(RunSteps(db, PublicationSteps(p)).value, journey) == Last(db, journey)
    ensures Unheld(RunSteps(db, PublicationSteps(p)).value, journey, now) == Unheld(db, journey, now)
  {
    hide RunSteps, PublicationSteps;
    PublicationStepsAre(p);
    RunLeaves(db, PublicationSteps(p), ClaimOn(journey));
  }

  // ---- A step handed on. ----

  /** The hand-on is its holder's: the last claim taken, whether ended by it or not, but not given
      back. */
  predicate IsHolders(db: Db, claim: Claim) {
    match Last(db, claim.journey)
    case None => false
    case Some(stored) =>
      stored.claim.token == claim.token && stored.claim.fence == claim.fence && stored.standing != Released
  }

  /** It answers whether it is its holder's, and takes effect where that holds its claim still,
      its lease run out or not; its claim is then ended, or held on for as long as it says. */
  lemma HandOnIs(ledger: Ledger, h: HandOn, moment: Moment)
    requires Sound(ledger.db) && ClaimsNamed(ledger.db)
    ensures Decide(ledger, HandingOn(h), moment).Ok?
    ensures Decide(ledger, HandingOn(h), moment).value.done == Yes(IsHolders(ledger.db, h.claim))
    ensures TookEffect(ledger, h, moment) <==> StillHolds(ledger.db, h.claim)
    ensures var after := After(ledger, HandingOn(h), moment);
            if StillHolds(ledger.db, h.claim) then
              var held := Last(ledger.db, h.claim.journey).value.claim;
              Last(after.db, h.claim.journey)
              == Some(match h.keptForNanos
                      case None => Stored(held, HandedOn)
                      case Some(nanos) => Stored(held.(until := Later(moment.now, nanos)), Holding))
            else after == ledger
  {
    hide RunSteps, HandOnSteps, Sound, ClaimsNamed;
    TypedSo(ledger.db);
    StoredIsLast(ledger.db, h.claim.journey);
    DecideTyped(ledger, HandingOn(h), moment);
    HandOnAnswers(ledger, h, moment);
    if TookEffect(ledger, h, moment) {
      TookLeaves(ledger, h, moment);
      StoredIsLast(After(ledger, HandingOn(h), moment).db, h.claim.journey);
    }
  }

  /** Each Message it made reads back as made. */
  lemma HandOnMakes(ledger: Ledger, h: HandOn, moment: Moment, i: nat)
    requires Sound(ledger.db) && TookEffect(ledger, h, moment)
    requires i < |h.messages| && forall j | i < j < |h.messages| :: h.messages[j].message != h.messages[i].message
    ensures Read(After(ledger, HandingOn(h), moment).db, MessageAt(h.messages[i].message))
         == Some(MessageV(h.messages[i]))
  {
    hide RunSteps, HandOnSteps, Sound, Wrote, Moved, Stands, NoneWrites;
    var held := StoredOn(ledger.db, h.claim.journey).value.value.claim;
    var rest := Moved(h) + (Stands(h, moment.now) + [LastStep(h, held, moment.now)]);
    PartsOf(h, held, moment.now);
    RunAppended(ledger.db, Wrote(h), rest);
    WroteMakes(ledger.db, h, i);
    MovesNoMessage(h, held, moment.now, h.messages[i].message);
    RunLeaves(RunSteps(ledger.db, Wrote(h)).value, rest, MessageAt(h.messages[i].message));
  }

  lemma MovesNoMessage(h: HandOn, held: Claim, now: int, message: Id)
    ensures NoneWrites(Moved(h) + (Stands(h, now) + [LastStep(h, held, now)]), MessageAt(message))
  {
  }

  lemma WroteMakes(db: Db, h: HandOn, i: nat)
    requires RunSteps(db, Wrote(h)).Ok?
    requires i < |h.messages| && forall j | i < j < |h.messages| :: h.messages[j].message != h.messages[i].message
    ensures Read(RunSteps(db, Wrote(h)).value, MessageAt(h.messages[i].message)) == Some(MessageV(h.messages[i]))
  {
    hide RunSteps;
    var result, messages := CountSteps([h.result], h.queued), MessageSteps(h.messages);
    var next := CountSteps(h.next, h.queued);
    RunAppended(db, result, messages + next);
    var one := RunSteps(db, result).value;
    RunAppended(one, messages, next);
    MessagesWrite(one, h.messages, i);
    CountStepsAre(h.next, h.queued);
    RunLeaves(RunSteps(one, messages).value, next, MessageAt(h.messages[i].message));
  }

  /** A failed Message that has a place once moved is entered in its queue's index: at the index's
      next place, under its own, with why it failed and when. An entry there stays as it is, cleared
      or not, but for the hand-on's own where it is cleared; and no other is entered. */
  lemma HandOnEnters(ledger: Ledger, h: HandOn, moment: Moment, queue: Id, journey: Id)
    requires Sound(ledger.db) && TookEffect(ledger, h, moment)
    ensures var after := After(ledger, HandingOn(h), moment).db; var was := FailedOf(ledger.db, queue, journey);
            var held := HeldOf(after, queue, journey); var ours := journey == h.claim.journey;
            FailedOf(after, queue, journey)
            == if ours && queue in h.cleared then None
               else if was.Some? then was
               else if ours && h.failed.Some? && h.failed.value.queue == queue && held.Some? then
                 Some(FailedEntry(queue, NextOf(ledger.db, FailedLine, queue), journey, held.value.sequence,
                                  h.failed.value.reason, moment.now))
               else None
  {
    var moved := HandOnSpot(ledger, h, moment, queue, journey);
  }

  /** Where it leaves its own Message waiting: marked failed where it was, or fails there, and is not
      cleared; and due when it says, or as it was where it stayed and was not marked failed now. */
  lemma HandOnLeavesStanding(ledger: Ledger, h: HandOn, moment: Moment, queue: Id)
    requires Sound(ledger.db) && TookEffect(ledger, h, moment)
    ensures var journey := h.claim.journey; var was := HeldOf(ledger.db, queue, journey);
            var held := HeldOf(After(ledger, HandingOn(h), moment).db, queue, journey);
            var stays := was.Some? && queue !in h.leaves && !LetsGo(ledger.db, h, queue, journey) && queue !in h.requeued;
            var failed := stays && was.value.failed; var fails := h.failed.Some? && h.failed.value.queue == queue;
            held.Some? ==>
              && held.value.failed == (queue !in h.cleared && (failed || fails))
              && held.value.due
                 == if h.waits.Some? && h.waits.value.queue == queue then Some(Later(moment.now, h.waits.value.afterNanos))
                    else if stays && (failed || !fails) then was.value.due else None
  {
    var moved := HandOnSpot(ledger, h, moment, queue, h.claim.journey);
  }

  // ---- A turn. ----

  /** The Instance is at the turn the write is over; none is at the first. */
  predicate IsOver(db: Db, write: InstanceWrite) {
    match Read(db, InstanceAt(write.record.instance))
    case Some(InstanceV(record)) => record.turns == write.over
    case _ => write.over == 0
  }

  predicate IsFree(db: Db, key: InstanceKey) {
    match Read(db, InstanceKeyAt(key.key))
    case Some(InstanceKeyV(owner)) => owner == key.instance
    case _ => true
  }

  lemma OversStand(db: Db, t: Turn)
    requires Typed(db)
    ensures Current(db, t)
         == Ok((forall w | w in t.instances :: IsOver(db, w)) && (forall k | k in t.keys :: IsFree(db, k)))
  {
    hide InstancesStand, KeysFree;
    AllStand(db, t.instances);
    AllFree(db, t.keys);
    assert forall k | k in t.keys :: FreeFor(db, k) <==> IsFree(db, k);
    assert forall w | w in t.instances :: (InstanceTurns(db, w.record.instance).value == w.over) <==> IsOver(db, w);
  }

  /** A turn is answered yes where each Instance is at the turn its write is over, each key is
      free, and its hand-on is its holder's; otherwise it writes nothing. */
  lemma TurnIs(ledger: Ledger, t: Turn, moment: Moment)
    requires Sound(ledger.db) && ClaimsNamed(ledger.db)
    ensures Decide(ledger, Turning(t), moment).Ok?
    ensures var yes := (forall w | w in t.instances :: IsOver(ledger.db, w))
                       && (forall k | k in t.keys :: IsFree(ledger.db, k))
                       && IsHolders(ledger.db, t.handOn.claim);
            && Decide(ledger, Turning(t), moment).value.done == Yes(yes)
            && (!yes ==> After(ledger, Turning(t), moment) == ledger)
  {
    hide RunSteps, HandOnSteps, TurnSteps, Current, Sound, ClaimsNamed;
    TypedSo(ledger.db);
    OversStand(ledger.db, t);
    StoredIsLast(ledger.db, t.handOn.claim.journey);
    DecideTyped(ledger, Turning(t), moment);
    TurnAnswers(ledger, t, moment);
    RunsNone(ledger.db);
  }

  /** No later write of the turn is of its Instance. */
  predicate LastWrite(writes: seq<InstanceWrite>, i: nat) {
    i < |writes| && forall j | i < j < |writes| :: writes[j].record.instance != writes[i].record.instance
  }

  /** Nor is a later one of its key. */
  predicate LastTake(keys: seq<InstanceKey>, k: nat) {
    k < |keys| && forall j | k < j < |keys| :: keys[j].key != keys[k].key
  }

  /** What a turn that takes effect leaves: the last record written of each Instance, each key with
      whom it last gave it but where it lets that go, and all its hand-on leaves. */
  lemma TurnDoes(ledger: Ledger, t: Turn, moment: Moment, i: nat, k: nat, key: Key)
    requires TurnTook(ledger, t, moment)
    ensures var after := After(ledger, Turning(t), moment).db;
            && (LastWrite(t.instances, i) ==>
                  Read(after, InstanceAt(t.instances[i].record.instance)) == Some(InstanceV(t.instances[i].record)))
            && (LastTake(t.keys, k) ==>
                  Read(after, InstanceKeyAt(t.keys[k].key))
                  == if t.keys[k] in t.unkeyed then None else Some(InstanceKeyV(t.keys[k].instance)))
            && (!key.InstanceAt? && !key.InstanceKeyAt? ==>
                  Read(after, key) == Read(After(ledger, HandingOn(t.handOn), moment).db, key))
  {
    hide RunSteps, TurnSteps, LastWrite, LastTake, After;
    var handed := TurnRuns(ledger, t, moment);
    if LastWrite(t.instances, i) {
      InstanceLeft(handed, t, i);
    }
    if LastTake(t.keys, k) {
      KeyLeft(handed, t, k);
    }
    if !key.InstanceAt? && !key.InstanceKeyAt? {
      TurnBeside(t, key);
      RunLeaves(handed, TurnSteps(t), key);
    }
  }

  /** Nothing the turn writes or takes: an Instance stays as it was, and a key does too, but where it
      belongs to the Instance the turn lets it go of. */
  lemma TurnLetsGo(ledger: Ledger, t: Turn, moment: Moment, id: Id)
    requires TurnTook(ledger, t, moment)
    ensures var after := After(ledger, Turning(t), moment).db; var owner := Read(ledger.db, InstanceKeyAt(id));
            && ((forall w | w in t.instances :: w.record.instance != id) ==>
                  Read(after, InstanceAt(id)) == Read(ledger.db, InstanceAt(id)))
            && ((forall k | k in t.keys :: k.key != id) ==>
                  Read(after, InstanceKeyAt(id))
                  == if exists k :: k in t.unkeyed && k.key == id && owner == Some(InstanceKeyV(k.instance)) then None
                     else owner)
  {
    hide RunSteps, HandOnSteps, After;
    var handed := TurnRuns(ledger, t, moment);
    HandOnNoTurn(ledger, t.handOn, moment, id);
    var takes, drops := InstanceSteps(t.instances) + KeySteps(t.keys), DropSteps(t.unkeyed);
    assert TurnSteps(t) == takes + drops;
    RunAppended(handed, takes, drops);
    var taken := RunSteps(handed, takes).value;
    if forall w | w in t.instances :: w.record.instance != id {
      assert NoneWrites(TurnSteps(t), InstanceAt(id));
      RunLeaves(handed, TurnSteps(t), InstanceAt(id));
    }
    if forall k | k in t.keys :: k.key != id {
      assert NoneWrites(takes, InstanceKeyAt(id));
      RunLeaves(handed, takes, InstanceKeyAt(id));
      DropsDo(taken, t.unkeyed, id);
    }
  }

  lemma HandOnNoTurn(ledger: Ledger, h: HandOn, moment: Moment, id: Id)
    requires TookEffect(ledger, h, moment)
    ensures var handed := After(ledger, HandingOn(h), moment).db;
            && Read(handed, InstanceAt(id)) == Read(ledger.db, InstanceAt(id))
            && Read(handed, InstanceKeyAt(id)) == Read(ledger.db, InstanceKeyAt(id))
  {
    hide RunSteps, Wrote, Moved, Stands;
    var held := StoredOn(ledger.db, h.claim.journey).value.value.claim;
    var steps := HandOnSteps(h, held, moment.now);
    PartsOf(h, held, moment.now);
    HandOnApart(h, held, moment.now, id);
    hide HandOnSteps;
    RunLeaves(ledger.db, steps, InstanceAt(id));
    RunLeaves(ledger.db, steps, InstanceKeyAt(id));
  }

  lemma HandOnApart(h: HandOn, held: Claim, now: int, id: Id)
    ensures NoneWrites(HandOnSteps(h, held, now), InstanceAt(id)) && NoneWrites(HandOnSteps(h, held, now), InstanceKeyAt(id))
  {
    CountStepsAre([h.result], h.queued);
    CountStepsAre(h.next, h.queued);
  }

  lemma {:induction false} DropsDo(db: Db, keys: seq<InstanceKey>, id: Id)
    requires RunSteps(db, DropSteps(keys)).Ok?
    ensures Read(RunSteps(db, DropSteps(keys)).value, InstanceKeyAt(id))
         == if exists k :: k in keys && k.key == id && Read(db, InstanceKeyAt(id)) == Some(InstanceKeyV(k.instance))
            then None else Read(db, InstanceKeyAt(id))
    decreases |keys|
  {
    if keys != [] {
      assert DropSteps(keys)[1..] == DropSteps(keys[1..]) && DropSteps(keys)[0] == DropKey(keys[0]);
      DropsDo(DoStep(db, DropKey(keys[0])).value, keys[1..], id);
      assert forall k :: k in keys <==> k == keys[0] || k in keys[1..];
    }
  }

  lemma TurnBeside(t: Turn, key: Key)
    requires !key.InstanceAt? && !key.InstanceKeyAt?
    ensures NoneWrites(TurnSteps(t), key)
  {
  }

  lemma {:induction false} LastIs(writes: seq<InstanceWrite>, i: nat)
    requires LastWrite(writes, i)
    ensures Writes(writes, writes[i].record.instance) && LastRecord(writes, writes[i].record.instance) == writes[i].record
    decreases |writes|
  {
    assert writes[i] in writes;
    if i < |writes| - 1 {
      assert writes[..|writes| - 1][i] == writes[i];
      LastIs(writes[..|writes| - 1], i);
    }
  }

  lemma {:induction false} OwnerIs(keys: seq<InstanceKey>, k: nat)
    requires LastTake(keys, k)
    ensures Turns.Takes(keys, keys[k].key) && LastOwner(keys, keys[k].key) == keys[k].instance
    decreases |keys|
  {
    assert keys[k] in keys;
    if k < |keys| - 1 {
      assert keys[..|keys| - 1][k] == keys[k];
      OwnerIs(keys[..|keys| - 1], k);
    }
  }

  lemma InstanceLeft(db: Db, t: Turn, i: nat)
    requires RunSteps(db, TurnSteps(t)).Ok? && LastWrite(t.instances, i)
    ensures Read(RunSteps(db, TurnSteps(t)).value, InstanceAt(t.instances[i].record.instance))
         == Some(InstanceV(t.instances[i].record))
  {
    hide RunSteps, LastRecord;
    var rest := KeySteps(t.keys) + DropSteps(t.unkeyed);
    RunAppended(db, InstanceSteps(t.instances), rest);
    var instance := t.instances[i].record.instance;
    LastIs(t.instances, i);
    LastWritten(db, t.instances, instance);
    assert NoneWrites(rest, InstanceAt(instance));
    RunLeaves(RunSteps(db, InstanceSteps(t.instances)).value, rest, InstanceAt(instance));
  }

  lemma KeyLeft(db: Db, t: Turn, k: nat)
    requires RunSteps(db, TurnSteps(t)).Ok? && LastTake(t.keys, k)
    ensures Read(RunSteps(db, TurnSteps(t)).value, InstanceKeyAt(t.keys[k].key))
         == if t.keys[k] in t.unkeyed then None else Some(InstanceKeyV(t.keys[k].instance))
  {
    hide RunSteps, TurnSteps, LastOwner, LastRecord;
    OwnerIs(t.keys, k);
    TurnLeaves(db, t);
    assert t.keys[k] in t.keys;
    assert InstanceKey(t.keys[k].key, t.keys[k].instance) == t.keys[k];
  }

  // ---- A Replay, and what is written alone. ----

  /** An entry placed is replayed now; one taken out was before; of none there never was one to
      replay, and nothing is written. */
  lemma ReplayIs(ledger: Ledger, r: Replay, moment: Moment)
    requires Sound(ledger.db)
    ensures Decide(ledger, Replaying(r), moment).Ok?
    ensures var answer := Decide(ledger, Replaying(r), moment).value.done;
            var after := After(ledger, Replaying(r), moment);
            match Read(ledger.db, By(DeadLine, r.queue, r.message))
            case None => answer == Done.Replays(Absent) && after == ledger
            case Some(TakenOutV) => answer == Done.Replays(ReplayedBefore) && after == ledger
            case Some(_) => answer == Done.Replays(ReplayedNow) && after.next == ledger.next + 1
  {
    hide RunSteps, Sound, ReplaySteps;
    TypedSo(ledger.db);
    DecideTyped(ledger, Replaying(r), moment);
    RunsNone(ledger.db);
  }

  /** A Journey, a Message or an audit record written alone is written, and nothing else. */
  lemma WrittenAlone(ledger: Ledger, journey: JourneyRecord, message: MessageRecord, entry: AuditEntry, moment: Moment)
    ensures Decide(ledger, WriteJourney(journey), moment)
         == Ok(Decision(Written, Ledger(ledger.db[JourneyAt(journey.journey) := JourneyV(journey)], ledger.next)))
    ensures Decide(ledger, WriteMessage(message), moment)
         == Ok(Decision(Written, Ledger(ledger.db[MessageAt(message.message) := MessageV(message)], ledger.next)))
    ensures Decide(ledger, WriteAudit(entry), moment)
         == Ok(Decision(Written, Ledger(ledger.db[AuditAt(ledger.next) := AuditV(entry)], ledger.next + 1)))
  {
    hide RunSteps;
    RunsOne(ledger.db, PutJourney(journey));
    RunsOne(ledger.db, PutMessage(message));
    RunsOne(ledger.db, PutAudit(ledger.next, entry));
  }

  /** The first audit record not moved, told moved, is forgotten; told of another, none is. */
  lemma ForgottenFirst(ledger: Ledger, number: nat, moment: Moment)
    requires Typed(ledger.db)
    ensures var first := match Read(ledger.db, KeptAt) case Some(NumberV(n)) => n case _ => 0;
            Decide(ledger, ForgetAudit(number), moment)
            == Ok(if first == number
                  then Decision(Yes(true),
                                Ledger((ledger.db - {AuditAt(number)})[KeptAt := NumberV(number + 1)], ledger.next))
                  else Decision(Yes(false), ledger))
  {
    hide RunSteps;
    RunsOne(ledger.db, DropAudit(number));
    RunsNone(ledger.db);
  }

  /** Each of a group is answered as it is after those before it, one after another. */
  lemma {:induction false} GroupAnswers(ledger: Ledger, ops: seq<Op>, moment: Moment, i: nat)
    requires i < |ops|
    ensures |Writers.Serial(ledger, ops, moment).answers| == |ops|
    ensures Writers.Serial(ledger, ops, moment).answers[i]
         == match Decide(Writers.Serial(ledger, ops[..i], moment).after, ops[i], moment)
            case Ok(decided) => Ok(decided.done)
            case Err(error) => Err(error)
    decreases |ops|
  {
    hide Decide, After;
    var after := After(ledger, ops[0], moment);
    GroupCounts(after, ops[1..], moment);
    if i > 0 {
      assert ops[..i][0] == ops[0] && ops[..i][1..] == ops[1..][..i - 1];
      GroupAnswers(after, ops[1..], moment, i - 1);
    }
  }

  lemma {:induction false} GroupCounts(ledger: Ledger, ops: seq<Op>, moment: Moment)
    ensures |Writers.Serial(ledger, ops, moment).answers| == |ops|
    decreases |ops|
  {
    hide Decide, After;
    if ops != [] {
      GroupCounts(After(ledger, ops[0], moment), ops[1..], moment);
    }
  }

  /** A Message of another Journey that a hand-on queues waits as queued, neither failed nor due; its
      own, moved to the end and left neither failed nor waiting there, waits as it was queued. */
  lemma HandOnPlaces(ledger: Ledger, h: HandOn, moment: Moment, queue: Id, journey: Id)
    requires Sound(ledger.db) && TookEffect(ledger, h, moment)
    requires journey == h.claim.journey ==>
               && (h.failed.Some? ==> h.failed.value.queue != queue) && (h.waits.Some? ==> h.waits.value.queue != queue)
    ensures var was := HeldOf(ledger.db, queue, journey);
            var now := HeldOf(After(ledger, HandingOn(h), moment).db, queue, journey);
            var ours := journey == h.claim.journey;
            var goes := (ours && queue in h.leaves) || LetsGo(ledger.db, h, queue, journey);
            && (now.Some? && (was.None? || goes) ==>
                  && Named(h.queued, queue, journey) && now.value.hold == FirstNamed(h.queued, queue, journey)
                  && !now.value.failed && now.value.due.None?)
            && (now.Some? && was.Some? && !goes && ours && queue in h.requeued ==>
                  now.value.hold == was.value.hold && !now.value.failed && now.value.due.None?)
  {
    var moved := HandOnSpot(ledger, h, moment, queue, journey);
  }
}
