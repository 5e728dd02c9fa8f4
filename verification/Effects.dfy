/** What an operation that takes effect has written, read back record by record
    (`publication.rs`, `dead.rs`, `claim.rs`). */
module Effects {
  import opened Wrappers
  import opened Records
  import opened Queues
  import opened Steps
  import opened Operations
  import opened Shapes
  import opened Frames
  import opened Lines
  import opened Spots
  import opened Conserved
  import opened Moves
  import opened Once
  import opened Repeats

  /** A Journey's record after `records` are written over it: the last of them about it. */
  function Latest(records: seq<JourneyRecord>, journey: Id, before: Option<Value>): Option<Value>
    decreases |records|
  {
    if records == [] then before
    else Latest(records[1..], journey, if records[0].journey == journey then Some(JourneyV(records[0])) else before)
  }

  lemma {:induction false} CountsWrite(db: Db, records: seq<JourneyRecord>, places: seq<Hold>, journey: Id)
    requires RunSteps(db, CountSteps(records, places)).Ok?
    ensures Read(RunSteps(db, CountSteps(records, places)).value, JourneyAt(journey))
         == Latest(records, journey, Read(db, JourneyAt(journey)))
    decreases |records|
  {
    if records != [] {
      var steps := CountSteps(records, places);
      var rest := CountSteps(records[1..], places);
      assert steps == [Count(records[0], places), PutJourney(records[0])] + rest;
      assert steps[1..] == [PutJourney(records[0])] + rest && steps[1..][1..] == rest;
      var counted := DoStep(db, steps[0]).value;
      StepLeaves(db, steps[0], JourneyAt(journey));
      var put := counted[JourneyAt(records[0].journey) := JourneyV(records[0])];
      assert RunSteps(counted, steps[1..]) == RunSteps(put, rest);
      CountsWrite(put, records[1..], places, journey);
    }
  }

  /** Each Message written, the last of those about it. */
  lemma {:induction false} MessagesWrite(db: Db, messages: seq<MessageRecord>, i: nat)
    requires i < |messages| && forall j | i < j < |messages| :: messages[j].message != messages[i].message
    ensures RunSteps(db, MessageSteps(messages)).Ok?
    ensures Read(RunSteps(db, MessageSteps(messages)).value, MessageAt(messages[i].message)) == Some(MessageV(messages[i]))
  {
    var before, after := MessageSteps(messages[..i + 1]), MessageSteps(messages[i + 1..]);
    assert MessageSteps(messages) == before + after;
    AllWritten(db, messages[..i + 1]);
    RunAppended(db, before, after);
    var written := RunSteps(db, before).value;
    AllWritten(written, messages[i + 1..]);
    RunLeaves(written, after, MessageAt(messages[i].message));
  }

  lemma {:induction false} AllWritten(db: Db, messages: seq<MessageRecord>)
    ensures RunSteps(db, MessageSteps(messages)).Ok?
    ensures messages != [] ==>
              var last := messages[|messages| - 1];
              Read(RunSteps(db, MessageSteps(messages)).value, MessageAt(last.message)) == Some(MessageV(last))
    decreases |messages|
  {
    if messages != [] {
      var last := messages[|messages| - 1];
      var first := messages[..|messages| - 1];
      assert MessageSteps(messages) == MessageSteps(first) + [PutMessage(last)];
      AllWritten(db, first);
      RunAppended(db, MessageSteps(first), [PutMessage(last)]);
      var mid := RunSteps(db, MessageSteps(first)).value;
      assert [PutMessage(last)][1..] == [];
      assert RunSteps(db, MessageSteps(messages)) == Ok(mid[MessageAt(last.message) := MessageV(last)]);
    }
  }

  // ---- Messages queued with a Publication or a Replay. ----

  /** Where a Message the operation queues waits: at the place it had, where it still has one;
      else at a fresh one after all the queue held, with what was first queued of it. */
  ghost predicate Waits(ledger: Ledger, asked: Asked, hold: Hold) {
    var was := if OpensLetGo(ledger, asked, hold.queue, hold.journey) then None else HeldOf(ledger.db, hold.queue, hold.journey);
    var now := HeldOf(After(ledger, asked.op, asked.moment).db, hold.queue, hold.journey);
    && now.Some?
    && (was.Some? ==> now == was)
    && (was.None? ==>
          && Named(Queued(asked.op), hold.queue, hold.journey)
          && now.value == Held(now.value.sequence, FirstNamed(Queued(asked.op), hold.queue, hold.journey), false, None)
          && now.value.sequence >= NextOf(ledger.db, HeldLine, hold.queue))
  }

  lemma NamedIn(holds: seq<Hold>, hold: Hold)
    requires hold in holds
    ensures Named(holds, hold.queue, hold.journey)
  {
  }

  // ---- A Replay. ----

  /** What the steps after the entry is taken out leave. */
  lemma OpenedDoes(db: Db, r: Replay, next: nat, journey: Id, place: nat)
    requires Sound(db) && Entry(DeadLine, r.queue, place) !in db
    ensures var steps := CountSteps(r.journeys, r.held) + (JoinSteps(r.held) + [PutAudit(next, r.audit)]);
            && RunSteps(db, steps).Ok?
            && var after := RunSteps(db, steps).value;
            && Read(after, JourneyAt(journey)) == Latest(r.journeys, journey, Read(db, JourneyAt(journey)))
            && Read(after, AuditAt(next)) == Some(AuditV(r.audit))
            && Entry(DeadLine, r.queue, place) !in after
  {
    hide RunSteps, Sound;
    var counts, joins, audit := CountSteps(r.journeys, r.held), JoinSteps(r.held), PutAudit(next, r.audit);
    RunAppended(db, counts, joins + [audit]);
    CountStepsAre(r.journeys, r.held);
    RunSound(db, counts);
    var counted := RunSteps(db, counts).value;
    CountsWrite(db, r.journeys, r.held, journey);
    RunAppended(counted, joins, [audit]);
    JoinsRun(counted, r.held, r.queue, journey);
    var joined := RunSteps(counted, joins).value;
    RunsOne(joined, audit);
    RunLeaves(counted, joins, JourneyAt(journey));
    RunLeaves(db, counts, Entry(DeadLine, r.queue, place));
    RunLeaves(counted, joins, Entry(DeadLine, r.queue, place));
  }

  /** A Replay that takes effect takes the entry out, writes its Journeys, queues their Messages
      and writes its audit record, all of it or nothing. */
  lemma ReplayDoes(ledger: Ledger, r: Replay, moment: Moment, journey: Id, hold: Hold)
    requires Sound(ledger.db) && Once.Replays(ledger, Asked(Replaying(r), moment), r.queue, r.message)
    ensures var after := After(ledger, Replaying(r), moment); var place := PlacedOf(ledger.db, DeadLine, r.queue, r.message).value.place;
            && Entry(DeadLine, r.queue, place) in ledger.db && Entry(DeadLine, r.queue, place) !in after.db
            && TakenOut(after.db, r.queue, r.message)
            && Read(after.db, JourneyAt(journey)) == Latest(r.journeys, journey, Read(ledger.db, JourneyAt(journey)))
            && (hold in r.held ==> Waits(ledger, Asked(Replaying(r), moment), hold))
            && Read(after.db, AuditAt(ledger.next)) == Some(AuditV(r.audit)) && after.next == ledger.next + 1
  {
    hide RunSteps, Sound, HeldOf, Latest, OpensLetGo;
    var place := PlacedOf(ledger.db, DeadLine, r.queue, r.message).value.place;
    var take := TakeDead(r.queue, r.message, place);
    var rest := CountSteps(r.journeys, r.held) + (JoinSteps(r.held) + [PutAudit(ledger.next, r.audit)]);
    assert ReplaySteps(r, place, ledger.next) == [take] + rest;
    DeadThere(ledger.db, r.queue, r.message, place);
    TakeDeadSound(ledger.db, r.queue, r.message, place);
    RunsOne(ledger.db, take);
    RunAppended(ledger.db, [take], rest);
    StepLeaves(ledger.db, take, JourneyAt(journey));
    OpenedDoes(DoStep(ledger.db, take).value, r, ledger.next, journey, place);
    TakenOutAfter(ledger, Asked(Replaying(r), moment), r.queue, r.message);
    if hold in r.held {
      NamedIn(r.held, hold);
      ReplayOpens(ledger, r, moment, hold.queue, hold.journey);
    }
  }

  lemma DeadThere(db: Db, queue: Id, about: Id, place: nat)
    requires Sound(db) && PlacedOf(db, DeadLine, queue, about) == Ok(AtPlace(place))
    ensures Entry(DeadLine, queue, place) in db && Read(db, By(DeadLine, queue, about)) == Some(PlaceV(place))
  {
    assert LineOk(db, DeadLine, queue);
  }

  // ---- A Publication. ----

  /** A Dead Message Queue entry entered at the end of its queue, or left as it was where the
      queue has it, or had it and it was taken out. */
  ghost predicate Died(db: Db, after: Db, dead: DeadMessage) {
    var index := By(DeadLine, dead.queue, dead.message);
    if index in db then Read(after, index) == Read(db, index)
    else
      var next := NextOf(db, DeadLine, dead.queue);
      Read(after, index) == Some(PlaceV(next)) && Read(after, Entry(DeadLine, dead.queue, next)) == Some(DeadV(DeadEntry(next, dead)))
  }

  /** A Publication that takes effect writes its Message, its Journeys, their places in queues
      and its Dead Message Queue entry, that it was written, and its audit record. */
  lemma PublishDoes(ledger: Ledger, p: Publication, moment: Moment, journey: Id, hold: Hold)
    requires Sound(ledger.db) && Publishes(ledger, Asked(Publishing(p), moment), p.message.message)
    ensures var after := After(ledger, Publishing(p), moment);
            && Read(after.db, MessageAt(p.message.message)) == Some(MessageV(p.message))
            && Read(after.db, JourneyAt(journey)) == Latest(p.journeys, journey, Read(ledger.db, JourneyAt(journey)))
            && (hold in p.held ==> Waits(ledger, Asked(Publishing(p), moment), hold))
            && (p.dead.Some? ==> Died(ledger.db, after.db, p.dead.value))
            && Read(after.db, PublishedAt(p.message.message)) == Some(PublishedV(p))
            && Read(after.db, AuditAt(ledger.next)) == Some(AuditV(p.audit)) && after.next == ledger.next + 1
  {
    hide RunSteps, Sound, Grants, PublicationSteps, StillHeld, HeldOf, OpensLetGo, Died;
    var until := SaturatingAdd(moment.now, p.leaseNanos);
    var grants, kept := GrantSteps(p.claims, moment, until), [PutPublished(p), PutAudit(ledger.next, p.audit)];
    RunAppended(ledger.db, PublicationSteps(p), grants + kept);
    PublicationDoes(ledger.db, p, journey);
    var written := RunSteps(ledger.db, PublicationSteps(p)).value;
    RunAppended(written, grants, kept);
    RunSound(written, grants);
    var granted := RunSteps(written, grants).value;
    KeptLast(granted, p, ledger.next);
    RunLeaves(written, grants, MessageAt(p.message.message));
    RunLeaves(written, grants, JourneyAt(journey));
    if p.dead.Some? {
      DiedLast(ledger, p, moment, written);
    }
    if hold in p.held {
      NamedIn(p.held, hold);
      PublishOpens(ledger, p, moment, hold.queue, hold.journey);
    }
  }

  lemma DiedLast(ledger: Ledger, p: Publication, moment: Moment, written: Db)
    requires p.dead.Some? && Died(ledger.db, written, p.dead.value)
    requires var rest := GrantSteps(p.claims, moment, SaturatingAdd(moment.now, p.leaseNanos))
                         + [PutPublished(p), PutAudit(ledger.next, p.audit)];
             RunSteps(written, rest) == Ok(After(ledger, Publishing(p), moment).db)
    ensures Died(ledger.db, After(ledger, Publishing(p), moment).db, p.dead.value)
  {
    hide RunSteps, After;
    var rest := GrantSteps(p.claims, moment, SaturatingAdd(moment.now, p.leaseNanos)) + [PutPublished(p), PutAudit(ledger.next, p.audit)];
    forall key: Key | OfLine(key, DeadLine) ensures Read(After(ledger, Publishing(p), moment).db, key) == Read(written, key) {
      RunLeaves(written, rest, key);
    }
  }

  lemma KeptLast(db: Db, p: Publication, next: nat)
    ensures RunSteps(db, [PutPublished(p), PutAudit(next, p.audit)])
         == Ok(db[PublishedAt(p.message.message) := PublishedV(p)][AuditAt(next) := AuditV(p.audit)])
  {
    var kept := [PutPublished(p), PutAudit(next, p.audit)];
    var one := db[PublishedAt(p.message.message) := PublishedV(p)];
    assert kept[1..] == [PutAudit(next, p.audit)];
    RunsOne(one, PutAudit(next, p.audit));
  }

  lemma PublicationDoes(db: Db, p: Publication, journey: Id)
    requires Sound(db) && RunSteps(db, PublicationSteps(p)).Ok?
    ensures var after := RunSteps(db, PublicationSteps(p)).value;
            && Sound(after)
            && Read(after, MessageAt(p.message.message)) == Some(MessageV(p.message))
            && Read(after, JourneyAt(journey)) == Latest(p.journeys, journey, Read(db, JourneyAt(journey)))
            && (p.dead.Some? ==> Died(db, after, p.dead.value))
  {
    hide RunSteps, Sound, Died, Latest, HeldOf, FailedOf;
    var counts, joins := CountSteps(p.journeys, p.held), JoinSteps(p.held);
    var dead: seq<Step> := if p.dead.None? then [] else [KeepDead(p.dead.value)];
    assert PublicationSteps(p) == [PutMessage(p.message)] + (counts + (joins + dead));
    RunsOne(db, PutMessage(p.message));
    StepSound(db, PutMessage(p.message));
    var put := db[MessageAt(p.message.message) := MessageV(p.message)];
    RunAppended(db, [PutMessage(p.message)], counts + (joins + dead));
    RunAppended(put, counts, joins + dead);
    CountStepsAre(p.journeys, p.held);
    RunSound(put, counts);
    var counted := RunSteps(put, counts).value;
    CountsWrite(put, p.journeys, p.held, journey);
    RunAppended(counted, joins, dead);
    RunSound(counted, joins);
    var joined := RunSteps(counted, joins).value;
    RunLeaves(put, counts, MessageAt(p.message.message));
    RunLeaves(counted, joins, MessageAt(p.message.message));
    RunLeaves(counted, joins, JourneyAt(journey));
    forall key: Key | OfLine(key, DeadLine) ensures Read(joined, key) == Read(db, key) {
      RunLeaves(put, counts, key);
      RunLeaves(counted, joins, key);
    }
    DeadKept(db, joined, dead, p);
    RunLeaves(joined, dead, MessageAt(p.message.message));
    RunLeaves(joined, dead, JourneyAt(journey));
  }

  lemma DeadKept(before: Db, db: Db, dead: seq<Step>, p: Publication)
    requires Sound(db) && dead == if p.dead.None? then [] else [KeepDead(p.dead.value)]
    requires forall key: Key | OfLine(key, DeadLine) :: Read(db, key) == Read(before, key)
    ensures RunSteps(db, dead).Ok? && Sound(RunSteps(db, dead).value)
    ensures p.dead.Some? ==> Died(before, RunSteps(db, dead).value, p.dead.value)
  {
    if p.dead.Some? {
      var step := KeepDead(p.dead.value);
      StepSound(db, step);
      RunsOne(db, step);
      var d := p.dead.value;
      assert Read(db, By(DeadLine, d.queue, d.message)) == Read(before, By(DeadLine, d.queue, d.message));
      assert Read(db, PlacesAt(DeadLine, d.queue)) == Read(before, PlacesAt(DeadLine, d.queue));
    } else {
      RunsNone(db);
    }
  }

  // ---- The claims a Publication is granted. ----

  /** A claim the Publication answers is granted, and is the one recorded. */
  ghost predicate Recorded(db: Db, claim: Claim, now: int) {
    StoredOn(db, claim.journey) == Ok(Some(Stored(claim, Holding))) && claim.until >= now
  }

  lemma RecordedStays(db: Db, claim: Claim, asked: Claim, now: int, until: int, epoch: nat)
    requires Recorded(db, claim, now) && StoredOn(db, asked.journey).Ok?
    ensures Recorded(AfterGrant(db, StoredOn(db, asked.journey).value, asked, now, until, epoch), claim, now)
  {
  }

  lemma {:induction false} GrantsStay(db: Db, claims: seq<Claim>, claim: Claim, moment: Moment, until: int)
    requires Recorded(db, claim, moment.now) && RunSteps(db, GrantSteps(claims, moment, until)).Ok?
    ensures Recorded(RunSteps(db, GrantSteps(claims, moment, until)).value, claim, moment.now)
    decreases |claims|
  {
    if claims != [] {
      var steps := GrantSteps(claims, moment, until);
      assert steps[1..] == GrantSteps(claims[1..], moment, until);
      RecordedStays(db, claim, claims[0], moment.now, until, moment.epoch);
      GrantsStay(DoStep(db, steps[0]).value, claims[1..], claim, moment, until);
    }
  }

  /** The first is granted or not, and the rest as they then are. */
  lemma GrantsFirst(db: Db, claims: seq<Claim>, moment: Moment, until: int) returns (next: Db, granted: Option<Claim>)
    requires ClaimsNamed(db) && until >= moment.now && claims != [] && Grants(db, claims, moment, until).Ok?
    ensures ClaimsNamed(next) && Grants(next, claims[1..], moment, until).Ok?
    ensures Grants(db, claims, moment, until).value
         == (if granted.Some? then [granted.value] else []) + Grants(next, claims[1..], moment, until).value
    ensures RunSteps(db, GrantSteps(claims, moment, until)) == RunSteps(next, GrantSteps(claims[1..], moment, until))
    ensures granted.Some? ==>
              && Recorded(next, granted.value, moment.now)
              && granted.value.journey == claims[0].journey && granted.value.token == claims[0].token
  {
    assert GrantSteps(claims, moment, until)[1..] == GrantSteps(claims[1..], moment, until);
    var before := StoredOn(db, claims[0].journey).value;
    next := AfterGrant(db, before, claims[0], moment.now, until, moment.epoch);
    granted := Granted(before, claims[0], moment.now, until, moment.epoch);
  }

  lemma {:induction false} GrantsDo(db: Db, claims: seq<Claim>, moment: Moment, until: int)
    requires ClaimsNamed(db) && until >= moment.now && Grants(db, claims, moment, until).Ok?
    ensures RunSteps(db, GrantSteps(claims, moment, until)).Ok?
    ensures forall claim | claim in Grants(db, claims, moment, until).value ::
              Recorded(RunSteps(db, GrantSteps(claims, moment, until)).value, claim, moment.now)
              && exists asked :: asked in claims && asked.journey == claim.journey && asked.token == claim.token
    decreases |claims|
  {
    hide Recorded, ClaimsNamed, GrantSteps;
    if claims == [] {
      assert GrantSteps(claims, moment, until) == [] by { NoGrants(moment, until); }
      RunsNone(db);
    } else {
      var next, granted := GrantsFirst(db, claims, moment, until);
      hide RunSteps, Grants;
      GrantsDo(next, claims[1..], moment, until);
      forall claim | claim in Grants(db, claims, moment, until).value
        ensures Recorded(RunSteps(db, GrantSteps(claims, moment, until)).value, claim, moment.now)
        ensures exists asked :: asked in claims && asked.journey == claim.journey && asked.token == claim.token
      {
        if claim in Grants(next, claims[1..], moment, until).value {
          var asked :| asked in claims[1..] && asked.journey == claim.journey && asked.token == claim.token;
          assert asked in claims;
        } else {
          assert granted == Some(claim);
          GrantsStay(next, claims[1..], claim, moment, until);
          assert claims[0] in claims;
        }
      }
    }
  }

  lemma NoGrants(moment: Moment, until: int)
    ensures GrantSteps([], moment, until) == []
  {
  }

  /** A Publication that takes effect answers claims it asked for under their own tokens, each of
      which is then the one recorded on its Message, its lease not run out. */
  lemma PublishGrants(ledger: Ledger, p: Publication, moment: Moment)
    requires Sound(ledger.db) && ClaimsNamed(ledger.db) && moment.now <= I128_MAX
    requires Publishes(ledger, Asked(Publishing(p), moment), p.message.message)
    ensures Decide(ledger, Publishing(p), moment).value.done.Claims?
    ensures forall claim | claim in Decide(ledger, Publishing(p), moment).value.done.claims ::
              && Recorded(After(ledger, Publishing(p), moment).db, claim, moment.now)
              && exists asked :: asked in p.claims && asked.journey == claim.journey && asked.token == claim.token
  {
    hide RunSteps, Sound, PublicationSteps, StillHeld, Recorded;
    var until := SaturatingAdd(moment.now, p.leaseNanos);
    var grants, kept := GrantSteps(p.claims, moment, until), [PutPublished(p), PutAudit(ledger.next, p.audit)];
    RunAppended(ledger.db, PublicationSteps(p), grants + kept);
    var written := RunSteps(ledger.db, PublicationSteps(p)).value;
    RunAppended(written, grants, kept);
    PublicationStepsAre(p);
    RunNamed(ledger.db, PublicationSteps(p));
    GrantsDo(written, p.claims, moment, until);
    var granted := RunSteps(written, grants).value;
    KeptLast(granted, p, ledger.next);
    forall claim | claim in Grants(written, p.claims, moment, until).value
      ensures Recorded(After(ledger, Publishing(p), moment).db, claim, moment.now)
    {
      RecordedLast(granted, p, ledger.next, claim, moment.now);
    }
  }

  lemma RecordedLast(db: Db, p: Publication, next: nat, claim: Claim, now: int)
    requires Recorded(db, claim, now)
    ensures Recorded(db[PublishedAt(p.message.message) := PublishedV(p)][AuditAt(next) := AuditV(p.audit)], claim, now)
  {
  }

  // ---- A hand-on. ----

  lemma WroteDoes(db: Db, h: HandOn, journey: Id)
    requires RunSteps(db, Wrote(h)).Ok?
    ensures Read(RunSteps(db, Wrote(h)).value, JourneyAt(journey))
         == Latest([h.result] + h.next, journey, Read(db, JourneyAt(journey)))
  {
    hide RunSteps, Latest;
    var result, messages, next := CountSteps([h.result], h.queued), MessageSteps(h.messages), CountSteps(h.next, h.queued);
    RunAppended(db, result, messages + next);
    var one := RunSteps(db, result).value;
    CountsWrite(db, [h.result], h.queued, journey);
    RunAppended(one, messages, next);
    RunLeaves(one, messages, JourneyAt(journey));
    CountsWrite(RunSteps(one, messages).value, h.next, h.queued, journey);
    LatestParts([h.result], h.next, journey, Read(db, JourneyAt(journey)));
  }

  lemma MovesNoJourney(h: HandOn, held: Claim, now: int, journey: Id)
    ensures NoneWrites(Moved(h) + (Stands(h, now) + [LastStep(h, held, now)]), JourneyAt(journey))
  {
  }

  /** A hand-on that takes effect has written its result, and the Journeys that go on. */
  lemma HandOnDoes(ledger: Ledger, h: HandOn, moment: Moment, journey: Id)
    requires Sound(ledger.db) && TookEffect(ledger, h, moment)
    ensures Read(After(ledger, HandingOn(h), moment).db, JourneyAt(journey))
         == Latest([h.result] + h.next, journey, Read(ledger.db, JourneyAt(journey)))
  {
    hide RunSteps, HandOnSteps, Sound, Wrote, Moved, Stands, Latest, NoneWrites;
    var held := StoredOn(ledger.db, h.claim.journey).value.value.claim;
    var rest := Moved(h) + (Stands(h, moment.now) + [LastStep(h, held, moment.now)]);
    PartsOf(h, held, moment.now);
    RunAppended(ledger.db, Wrote(h), rest);
    WroteDoes(ledger.db, h, journey);
    MovesNoJourney(h, held, moment.now, journey);
    RunLeaves(RunSteps(ledger.db, Wrote(h)).value, rest, JourneyAt(journey));
  }

  lemma LatestParts(one: seq<JourneyRecord>, rest: seq<JourneyRecord>, journey: Id, before: Option<Value>)
    requires |one| == 1
    ensures Latest(one + rest, journey, before) == Latest(rest, journey, Latest(one, journey, before))
  {
    assert (one + rest)[0] == one[0] && (one + rest)[1..] == rest && one[1..] == [];
  }
}
