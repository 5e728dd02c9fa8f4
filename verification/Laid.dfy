/** The entries of the queues as they are written, one put after another, and their rows laid out
    in columns (`queue.rs`, `hold.rs`, `failed.rs`, `dead.rs`, `row.rs`): no two entries of a
    queue are ever about one Message, so the indexes on them are exact after every run. */
module Laid {
  import opened Wrappers
  import opened Records
  import opened Queues
  import opened Holds
  import Origins
  import opened Steps
  import opened Operations
  import opened Shapes
  import opened Frames
  import opened Lines
  import opened Spots
  import opened Conserved
  import opened Once
  import Encoding
  import Columns

  // ---- What is put at a queue's places, in the order it is. ----

  /** A value put at a place of a queue, or what was there taken out. */
  datatype Put = Put(kind: Kind, queue: Id, place: nat, value: Option<Value>) {
    function Key(): Key {
      Entry(kind, queue, place)
    }
  }

  function EntriesOf(db: Db): Db {
    map key | key in db && key.Entry? :: db[key]
  }

  function PutAll(entries: Db, puts: seq<Put>): Db
    decreases |puts|
  {
    if puts == [] then entries else PutAll(Write(entries, puts[0].Key(), puts[0].value), puts[1..])
  }

  /** An entry under its own number, about nothing another entry of its queue is about. */
  ghost predicate PutOk(entries: Db, put: Put) {
    put.value.Some? ==>
      && Fits(put.Key(), put.value.value) && Numbered(put.value.value, put.queue, put.place)
      && forall other: Key | other in entries && other.Entry? && other != put.Key()
           && other.kind == put.kind && other.queue == put.queue ::
           AboutOf(entries[other]) != AboutOf(put.value.value)
  }

  ghost predicate AllPutOk(entries: Db, puts: seq<Put>)
    decreases |puts|
  {
    puts == [] || (PutOk(entries, puts[0]) && AllPutOk(Write(entries, puts[0].Key(), puts[0].value), puts[1..]))
  }

  /** `puts` take the entries of `db` to those of `after`, each in turn an entry of its own. */
  ghost predicate Comes(db: Db, puts: seq<Put>, after: Db) {
    EntriesOf(after) == PutAll(EntriesOf(db), puts) && AllPutOk(EntriesOf(db), puts)
  }

  lemma {:induction false} PutParts(entries: Db, first: seq<Put>, rest: seq<Put>)
    ensures PutAll(entries, first + rest) == PutAll(PutAll(entries, first), rest)
    ensures AllPutOk(entries, first) && AllPutOk(PutAll(entries, first), rest) ==> AllPutOk(entries, first + rest)
    decreases |first|
  {
    if first == [] {
      assert first + rest == rest;
    } else {
      assert (first + rest)[0] == first[0] && (first + rest)[1..] == first[1..] + rest;
      PutParts(Write(entries, first[0].Key(), first[0].value), first[1..], rest);
    }
  }

  lemma ComesThen(db: Db, first: seq<Put>, mid: Db, rest: seq<Put>, after: Db)
    requires Comes(db, first, mid) && Comes(mid, rest, after)
    ensures Comes(db, first + rest, after)
  {
    PutParts(EntriesOf(db), first, rest);
  }

  lemma ComesOne(db: Db, put: Put, after: Db)
    requires PutOk(EntriesOf(db), put) && EntriesOf(after) == Write(EntriesOf(db), put.Key(), put.value)
    ensures Comes(db, [put], after)
  {
    assert [put][1..] == [];
  }

  lemma ComesNone(db: Db, after: Db)
    requires EntriesOf(after) == EntriesOf(db)
    ensures Comes(db, [], after)
  {
  }

  function PlacePuts(db: Db, kind: Kind, queue: Id, about: Id, made: Fresh): seq<Put> {
    if By(kind, queue, about) in db || PlacesOf(db, kind, queue).Err? then []
    else
      var next := PlacesOf(db, kind, queue).value.next;
      [Put(kind, queue, next, Some(EntryOf(made, queue, next)))]
  }

  function OutPuts(db: Db, kind: Kind, queue: Id, about: Id): seq<Put> {
    match PlacedOf(db, kind, queue, about)
    case Ok(AtPlace(place)) => [Put(kind, queue, place, None)]
    case _ => []
  }

  function EndPuts(db: Db, queue: Id, journey: Id): seq<Put> {
    OutPuts(db, HeldLine, queue, journey)
    + match HeldOf(db, queue, journey)
      case Some(held) =>
        var next := NextOf(db, HeldLine, queue);
        [Put(HeldLine, queue, next, Some(HeldV(Held(next, held.hold, false, None))))]
      case None => []
  }

  function MarkPuts(db: Db, queue: Id, journey: Id, failed: bool): seq<Put> {
    match HeldOf(db, queue, journey)
    case Some(held) =>
      if held.failed == failed then []
      else [Put(HeldLine, queue, held.sequence, Some(HeldV(Marked(held, failed))))]
    case None => []
  }

  function DeferPuts(db: Db, queue: Id, journey: Id, due: int): seq<Put> {
    match HeldOf(db, queue, journey)
    case Some(held) => [Put(HeldLine, queue, held.sequence, Some(HeldV(held.(due := Some(due)))))]
    case None => []
  }

  function ReleasePuts(db: Db, queues: seq<Id>, holder: Id): seq<Put>
    decreases |queues|
  {
    if queues == [] then []
    else
      match LetGoOf(db, queues[0], holder)
      case Ok(left) => OutPuts(db, HeldLine, queues[0], holder) + ReleasePuts(left, queues[1..], holder)
      case Err(_) => []
  }

  function RolePuts(db: Db, was: bool, holder: Option<Id>, open: bool, places: seq<Hold>): seq<Put> {
    if holder.None? || (was == open && !Origins.Takes(places, holder.value)) then []
    else
      match Origins.OriginAt(db, holder.value)
      case Ok(origin) =>
        if Origins.Moved(origin.open, if was != open then Some(open) else None) == 0
        then ReleasePuts(db, Origins.WithQueues(origin.queues, places, holder.value), holder.value) else []
      case Err(_) => []
  }

  function CountPuts(db: Db, record: JourneyRecord, places: seq<Hold>): seq<Put> {
    match Origins.JourneyOf(db, record.journey)
    case Err(_) => []
    case Ok(before) =>
      var was, group := Origins.WasOrigin(before, record), Origins.WasGroup(before, record);
      RolePuts(db, was, record.origin, record.open, places)
      + match Origins.CountRole(db, was, record.origin, record.open, places)
        case Ok(first) => RolePuts(first, group, record.groupDelivery, record.groupOpen, places)
        case Err(_) => []
  }

  /** What a step puts at places, in order: what it takes out before what it puts in. */
  function StepPuts(db: Db, step: Step): seq<Put> {
    match step
    case Count(record, places) => CountPuts(db, record, places)
    case Leave(queue, journey) => OutPuts(db, HeldLine, queue, journey)
    case Join(hold) => PlacePuts(db, HeldLine, hold.queue, hold.journey, FreshHeld(hold))
    case MoveToEnd(queue, journey) => EndPuts(db, queue, journey)
    case Fail(journey, failure, at) =>
      (match HeldOf(db, failure.queue, journey)
       case Some(held) =>
         MarkPuts(db, failure.queue, journey, true)
         + PlacePuts(db, FailedLine, failure.queue, journey, FreshFailed(journey, held.sequence, failure.reason, at))
       case None => [])
    case Unfail(queue, journey) => OutPuts(db, FailedLine, queue, journey) + MarkPuts(db, queue, journey, false)
    case Defer(queue, journey, due) => DeferPuts(db, queue, journey, due)
    case KeepDead(dead) => PlacePuts(db, DeadLine, dead.queue, dead.message, FreshDead(dead))
    case TakeDead(queue, about, place) => [Put(DeadLine, queue, place, None)]
    case _ => []
  }

  // ---- Each step does. ----

  lemma SameEntries(db: Db, after: Db)
    requires forall key: Key | key.Entry? :: Read(db, key) == Read(after, key)
    ensures EntriesOf(after) == EntriesOf(db)
  {
    forall key: Key | key.Entry? ensures (key in db <==> key in after) && (key in db ==> db[key] == after[key]) {
      assert Read(db, key) == Read(after, key);
    }
  }

  lemma PlaceComes(db: Db, kind: Kind, queue: Id, about: Id, made: Fresh)
    requires Sound(db) && MadeFor(kind, made) && MadeAbout(made, queue, about)
    ensures Queues.Place(db, kind, queue, about, made).Ok?
    ensures Comes(db, PlacePuts(db, kind, queue, about, made), Queues.Place(db, kind, queue, about, made).value)
  {
    assert LineOk(db, kind, queue);
    PlaceSound(db, kind, queue, about, made);
    if By(kind, queue, about) in db {
      ComesNone(db, db);
    } else {
      var next := PlacesOf(db, kind, queue).value.next;
      var after := Queues.Place(db, kind, queue, about, made).value;
      var put := Put(kind, queue, next, Some(EntryOf(made, queue, next)));
      assert PutOk(EntriesOf(db), put);
      assert EntriesOf(after) == Write(EntriesOf(db), put.Key(), put.value);
      ComesOne(db, put, after);
    }
  }

  lemma TakenComes(db: Db, kind: Kind, queue: Id, place: nat, gone: Option<Value>)
    requires Sound(db) && Entry(kind, queue, place) in db
    ensures Comes(db, [Put(kind, queue, place, None)], TakenFrom(db, kind, queue, place, gone))
  {
    TakeOutTyped(db, kind, queue, place);
    ComesOne(db, Put(kind, queue, place, None), TakenFrom(db, kind, queue, place, gone));
  }

  lemma LeaveComes(db: Db, queue: Id, journey: Id)
    requires Sound(db)
    ensures LetGoOf(db, queue, journey).Ok? && Sound(LetGoOf(db, queue, journey).value)
    ensures Comes(db, OutPuts(db, HeldLine, queue, journey), LetGoOf(db, queue, journey).value)
  {
    LeaveSpots(db, queue, journey, queue, journey);
    HeldIsPlaced(db, queue, journey);
    if HeldOf(db, queue, journey).Some? {
      TakeOutTyped(db, HeldLine, queue, HeldOf(db, queue, journey).value.sequence);
      TakenComes(db, HeldLine, queue, HeldOf(db, queue, journey).value.sequence, None);
    } else {
      ComesNone(db, db);
    }
  }

  lemma EndComes(db: Db, queue: Id, journey: Id)
    requires Sound(db)
    ensures ToTheEnd(db, queue, journey).Ok? && Comes(db, EndPuts(db, queue, journey), ToTheEnd(db, queue, journey).value)
  {
    HeldIsPlaced(db, queue, journey);
    EndSpots(db, queue, journey, queue, journey);
    if HeldOf(db, queue, journey).Some? {
      var held := HeldOf(db, queue, journey).value;
      TakeOutTyped(db, HeldLine, queue, held.sequence);
      OutSpots(db, queue, journey, queue, journey);
      TakeOutSound(db, HeldLine, queue, held.sequence, None);
      TakenComes(db, HeldLine, queue, held.sequence, None);
      var out := TakenFrom(db, HeldLine, queue, held.sequence, None);
      PlaceComes(out, HeldLine, queue, journey, FreshHeld(held.hold));
      ComesThen(db, [Put(HeldLine, queue, held.sequence, None)], out,
                PlacePuts(out, HeldLine, queue, journey, FreshHeld(held.hold)), ToTheEnd(db, queue, journey).value);
    } else {
      ComesNone(db, db);
    }
  }

  /** An entry where it is, marked or due otherwise. */
  lemma UpdateComes(db: Db, queue: Id, journey: Id, held: Held)
    requires Sound(db) && HeldOf(db, queue, journey).Some?
    requires held.sequence == HeldOf(db, queue, journey).value.sequence && held.hold == HeldOf(db, queue, journey).value.hold
    ensures Comes(db, [Put(HeldLine, queue, held.sequence, Some(HeldV(held)))], db[Entry(HeldLine, queue, held.sequence) := HeldV(held)])
  {
    HeldIsPlaced(db, queue, journey);
    assert LineOk(db, HeldLine, queue);
    var put := Put(HeldLine, queue, held.sequence, Some(HeldV(held)));
    assert PutOk(EntriesOf(db), put);
    ComesOne(db, put, db[Entry(HeldLine, queue, held.sequence) := HeldV(held)]);
  }

  lemma DeferComes(db: Db, queue: Id, journey: Id, due: int)
    requires Sound(db)
    ensures Wait(db, queue, journey, due).Ok?
    ensures Comes(db, DeferPuts(db, queue, journey, due), Wait(db, queue, journey, due).value)
  {
    HeldIsPlaced(db, queue, journey);
    DeferSpots(db, queue, journey, due, queue, journey);
    if HeldOf(db, queue, journey).Some? {
      UpdateComes(db, queue, journey, HeldOf(db, queue, journey).value.(due := Some(due)));
    } else {
      ComesNone(db, db);
    }
  }

  lemma MarkComes(db: Db, queue: Id, journey: Id, failed: bool)
    requires Sound(db) && HeldOf(db, queue, journey).Some?
    ensures var after := Mark(db, queue, HeldOf(db, queue, journey).value.sequence, failed);
            after.Ok? && Sound(after.value) && Comes(db, MarkPuts(db, queue, journey, failed), after.value)
  {
    HeldIsPlaced(db, queue, journey);
    MarkSpots(db, queue, journey, failed, queue, journey);
    var held := HeldOf(db, queue, journey).value;
    if held.failed == failed {
      ComesNone(db, db);
    } else {
      UpdateComes(db, queue, journey, Marked(held, failed));
    }
  }

  lemma FailComes(db: Db, journey: Id, failure: Failure, at: int)
    requires Sound(db)
    ensures Enter(db, journey, failure, at).Ok?
    ensures Comes(db, StepPuts(db, Fail(journey, failure, at)), Enter(db, journey, failure, at).value)
  {
    var queue := failure.queue;
    HeldIsPlaced(db, queue, journey);
    FailSpots(db, journey, failure, at, queue, journey);
    if HeldOf(db, queue, journey).Some? {
      var place := HeldOf(db, queue, journey).value.sequence;
      MarkComes(db, queue, journey, true);
      var marked := Mark(db, queue, place, true).value;
      var made := FreshFailed(journey, place, failure.reason, at);
      PlaceComes(marked, FailedLine, queue, journey, made);
      assert PlacePuts(marked, FailedLine, queue, journey, made) == PlacePuts(db, FailedLine, queue, journey, made);
      ComesThen(db, MarkPuts(db, queue, journey, true), marked, PlacePuts(db, FailedLine, queue, journey, made),
                Enter(db, journey, failure, at).value);
    } else {
      ComesNone(db, db);
    }
  }

  lemma UnfailComes(db: Db, queue: Id, journey: Id)
    requires Sound(db)
    ensures Clear(db, queue, journey).Ok? && Comes(db, StepPuts(db, Unfail(queue, journey)), Clear(db, queue, journey).value)
  {
    FailedIsPlaced(db, queue, journey);
    UnfailSpots(db, queue, journey, queue, journey);
    UnindexSpots(db, queue, journey, queue, journey);
    var out := Unindexed(db, queue, journey).value;
    if FailedOf(db, queue, journey).Some? {
      TakeOutTyped(db, FailedLine, queue, FailedOf(db, queue, journey).value.sequence);
      TakenComes(db, FailedLine, queue, FailedOf(db, queue, journey).value.sequence, None);
    } else {
      ComesNone(db, db);
    }
    HeldIsPlaced(out, queue, journey);
    if HeldOf(out, queue, journey).Some? {
      MarkComes(out, queue, journey, false);
    } else {
      ComesNone(out, out);
    }
    ComesThen(db, OutPuts(db, FailedLine, queue, journey), out, MarkPuts(out, queue, journey, false), Clear(db, queue, journey).value);
  }

  lemma {:induction false} ReleaseComes(db: Db, queues: seq<Id>, holder: Id)
    requires Sound(db)
    ensures var after := Origins.ReleaseAll(db, queues, holder);
            after.Ok? && Sound(after.value) && Comes(db, ReleasePuts(db, queues, holder), after.value)
    decreases |queues|
  {
    if queues == [] {
      ComesNone(db, db);
    } else {
      LeaveComes(db, queues[0], holder);
      var left := LetGoOf(db, queues[0], holder).value;
      ReleaseComes(left, queues[1..], holder);
      ComesThen(db, OutPuts(db, HeldLine, queues[0], holder), left, ReleasePuts(left, queues[1..], holder),
                Origins.ReleaseAll(db, queues, holder).value);
    }
  }

  lemma RoleComes(db: Db, was: bool, holder: Option<Id>, open: bool, places: seq<Hold>)
    requires Sound(db)
    ensures var after := Origins.CountRole(db, was, holder, open, places);
            after.Ok? && Sound(after.value) && Comes(db, RolePuts(db, was, holder, open, places), after.value)
  {
    CountRoleSpots(db, was, holder, open, places, 0, 0);
    var after := Origins.CountRole(db, was, holder, open, places).value;
    if holder.None? || (was == open && !Origins.Takes(places, holder.value)) {
      ComesNone(db, db);
    } else {
      var origin := Origins.OriginAt(db, holder.value).value;
      var queues := Origins.WithQueues(origin.queues, places, holder.value);
      if Origins.Moved(origin.open, if was != open then Some(open) else None) == 0 {
        ReleaseComes(db, queues, holder.value);
        SameEntries(Origins.ReleaseAll(db, queues, holder.value).value, after);
      } else {
        SameEntries(db, after);
        ComesNone(db, after);
      }
    }
  }

  lemma CountComes(db: Db, record: JourneyRecord, places: seq<Hold>)
    requires Sound(db)
    ensures Origins.Counted(db, record, places).Ok?
    ensures Comes(db, CountPuts(db, record, places), Origins.Counted(db, record, places).value)
  {
    CountSpots(db, record, places, 0, 0);
    var before := Origins.JourneyOf(db, record.journey).value;
    var was, group := Origins.WasOrigin(before, record), Origins.WasGroup(before, record);
    RoleComes(db, was, record.origin, record.open, places);
    var first := Origins.CountRole(db, was, record.origin, record.open, places).value;
    RoleComes(first, group, record.groupDelivery, record.groupOpen, places);
    ComesThen(db, RolePuts(db, was, record.origin, record.open, places), first,
              RolePuts(first, group, record.groupDelivery, record.groupOpen, places), Origins.Counted(db, record, places).value);
  }

  lemma TakeDeadComes(db: Db, queue: Id, about: Id, place: nat)
    requires Sound(db) && TakesIndexed(db, TakeDead(queue, about, place))
    ensures DoStep(db, TakeDead(queue, about, place)).Ok?
    ensures Comes(db, StepPuts(db, TakeDead(queue, about, place)), DoStep(db, TakeDead(queue, about, place)).value)
  {
    assert LineOk(db, DeadLine, queue);
    TakeDeadSound(db, queue, about, place);
    TakeOutTyped(db, DeadLine, queue, place);
    TakenComes(db, DeadLine, queue, place, Some(TakenOutV));
  }

  lemma StepComes(db: Db, step: Step)
    requires Sound(db) && TakesIndexed(db, step)
    ensures DoStep(db, step).Ok? && Sound(DoStep(db, step).value)
    ensures Comes(db, StepPuts(db, step), DoStep(db, step).value)
  {
    hide Sound, Comes;
    StepSound(db, step);
    match step {
      case Count(record, places) => CountComes(db, record, places);
      case Leave(queue, journey) => LeaveComes(db, queue, journey);
      case Join(hold) => PlaceComes(db, HeldLine, hold.queue, hold.journey, FreshHeld(hold));
      case MoveToEnd(queue, journey) => EndComes(db, queue, journey);
      case Fail(journey, failure, at) => FailComes(db, journey, failure, at);
      case Unfail(queue, journey) => UnfailComes(db, queue, journey);
      case Defer(queue, journey, due) => DeferComes(db, queue, journey, due);
      case KeepDead(dead) => PlaceComes(db, DeadLine, dead.queue, dead.message, FreshDead(dead));
      case TakeDead(queue, about, place) => TakeDeadComes(db, queue, about, place);
      case _ => OthersCome(db, step);
    }
  }

  lemma OthersCome(db: Db, step: Step)
    requires DoStep(db, step).Ok? && forall key: Key | key.Entry? :: !MayWrite(step, key)
    ensures Comes(db, [], DoStep(db, step).value)
  {
    var after := DoStep(db, step).value;
    forall key: Key | key.Entry? ensures Read(db, key) == Read(after, key) {
      StepLeaves(db, step, key);
    }
    SameEntries(db, after);
    ComesNone(db, after);
  }

  // ---- Over every run. ----

  function RunPuts(db: Db, steps: seq<Step>): seq<Put>
    decreases |steps|
  {
    if steps == [] then []
    else
      match DoStep(db, steps[0])
      case Ok(after) => StepPuts(db, steps[0]) + RunPuts(after, steps[1..])
      case Err(_) => []
  }

  lemma {:induction false} RunComes(db: Db, steps: seq<Step>)
    requires Sound(db) && (steps != [] ==> TakesIndexed(db, steps[0]))
    requires forall i | 0 < i < |steps| :: !steps[i].TakeDead?
    ensures RunSteps(db, steps).Ok? && Comes(db, RunPuts(db, steps), RunSteps(db, steps).value)
    decreases |steps|
  {
    hide Sound, Comes;
    if steps == [] {
      ComesNone(db, db);
    } else {
      StepComes(db, steps[0]);
      var after := DoStep(db, steps[0]).value;
      assert steps[1..] != [] ==> steps[1..][0] == steps[1];
      assert forall i | 0 < i < |steps[1..]| :: steps[1..][i] == steps[i + 1];
      RunComes(after, steps[1..]);
      ComesThen(db, StepPuts(db, steps[0]), after, RunPuts(after, steps[1..]), RunSteps(db, steps).value);
    }
  }

  /** What an operation puts: nothing where it fails. */
  function AskedPuts(ledger: Ledger, asked: Asked): seq<Put> {
    match PlanOf(ledger.db, ledger.next, asked.op, asked.moment)
    case Ok(plan) => RunPuts(ledger.db, plan.steps)
    case Err(_) => []
  }

  lemma AfterComes(ledger: Ledger, asked: Asked)
    requires Sound(ledger.db)
    ensures Comes(ledger.db, AskedPuts(ledger, asked), After(ledger, asked.op, asked.moment).db)
  {
    hide Sound, Comes, PlanOf, RunPuts, RunSteps;
    var plan := PlanOf(ledger.db, ledger.next, asked.op, asked.moment);
    if plan.Err? {
      ComesNone(ledger.db, ledger.db);
    } else {
      PlanFits(ledger, asked);
      RunComes(ledger.db, plan.value.steps);
    }
  }

  lemma PlanFits(ledger: Ledger, asked: Asked)
    requires Sound(ledger.db) && PlanOf(ledger.db, ledger.next, asked.op, asked.moment).Ok?
    ensures var steps := PlanOf(ledger.db, ledger.next, asked.op, asked.moment).value.steps;
            && (steps != [] ==> TakesIndexed(ledger.db, steps[0]))
            && forall i | 0 < i < |steps| :: !steps[i].TakeDead?
  {
    hide Sound, RunSteps, HandOnSteps, PublishSteps, Renewed, Current, TurnSteps, Grants, StillHeld;
    var steps := PlanOf(ledger.db, ledger.next, asked.op, asked.moment).value.steps;
    if asked.op.Replaying? {
      if steps != [] {
        var r := asked.op.replay;
        ReplayStepsAre(r, PlacedOf(ledger.db, DeadLine, r.queue, r.message).value.place, ledger.next);
        forall i | 0 < i < |steps| ensures !steps[i].TakeDead? {
          assert steps[i] == steps[1..][i - 1] && steps[i] in steps[1..];
        }
      }
    } else {
      PlanTakesNoDead(ledger, asked);
      if steps != [] {
        assert steps[0] in steps;
      }
    }
  }

  // ---- Laid out in columns. ----

  function KindOf(kind: Kind): nat {
    match kind
    case HeldLine => 1
    case DeadLine => 2
    case FailedLine => 3
  }

  function PlaceOf(key: Key): Columns.Place
    requires key.Entry?
  {
    Columns.Place(KindOf(key.kind), [key.queue, key.place])
  }

  function RowOf(value: Value, key: Key): Columns.Record
    requires key.Entry?
  {
    var place := map["queue" := Encoding.Ident(key.queue), "sequence" := Encoding.Count(key.place)];
    match value
    case HeldV(held) =>
      Columns.Record(held.hold.journey, place["failed" := Encoding.Flag(held.failed)]["due_at" := Encoding.Time(held.DueAt())])
    case FailedV(failed) =>
      Columns.Record(failed.journey, place["place" := Encoding.Count(failed.place)]["failed_at" := Encoding.Time(Nanos(failed.at))])
    case _ => Columns.Record(AboutOf(value), place)
  }

  function PlaceKinds(): map<Columns.Column, Encoding.Kind> {
    map["queue" := Encoding.AnId, "sequence" := Encoding.ACount]
  }

  function HeldTable(): Columns.Table {
    Columns.Table(PlaceKinds()["held_at" := Encoding.ATime]["failed" := Encoding.AFlag]["due_at" := Encoding.ATime],
                  [Columns.Index(9, ["queue", "held_at"], None), Columns.Index(20, ["queue", "sequence"], None),
                   Columns.Index(23, ["queue", "failed", "due_at", "sequence"], None)],
                  Some("held_at"), None, ["queue"])
  }

  /** When a dead Message was queued is in its body, which is opaque here. */
  function DeadTable(): Columns.Table {
    Columns.Table(PlaceKinds(), [Columns.Index(21, ["queue", "sequence"], None)], None, None, ["queue"])
  }

  function FailedTable(): Columns.Table {
    Columns.Table(PlaceKinds()["place" := Encoding.ACount]["failed_at" := Encoding.ATime],
                  [Columns.Index(22, ["queue", "sequence"], None)], None, None, ["queue"])
  }

  /** The tables of the queues: what waits, what is dead, what failed. */
  function QueueTables(): Columns.Tables {
    map[1 := HeldTable(), 2 := DeadTable(), 3 := FailedTable()]
  }

  lemma HeldTableOk()
    ensures Columns.TableOk(HeldTable())
  {
    var t := HeldTable();
    assert "held_at" != "queue";
    forall i, c | 0 <= i < |t.indexes| && c in t.named ensures c in t.indexes[i].columns {
      assert t.indexes[i].columns[0] == "queue";
    }
  }

  lemma OtherTablesOk()
    ensures Columns.TableOk(DeadTable()) && Columns.TableOk(FailedTable())
  {
    assert DeadTable().indexes[0].columns[0] == "queue" && FailedTable().indexes[0].columns[0] == "queue";
  }

  /** Which of the queues' tables an index is of. */
  function KindOfIndex(number: nat): nat {
    if number == 21 then 2 else if number == 22 then 3 else 1
  }

  lemma IndexesTold(kind: nat, i: nat)
    requires kind in QueueTables() && i < |QueueTables()[kind].indexes|
    ensures KindOfIndex(QueueTables()[kind].indexes[i].number) == kind
  {
  }

  lemma QueueTablesOk()
    ensures Columns.TablesOk(QueueTables())
  {
    HeldTableOk();
    OtherTablesOk();
    var tables := QueueTables();
    assert tables.Keys == {1, 2, 3} && tables[1] == HeldTable() && tables[2] == DeadTable() && tables[3] == FailedTable();
    hide HeldTable, DeadTable, FailedTable, Columns.TableOk, QueueTables, KindOfIndex;
    forall a, b, i, j | a in tables && b in tables && a != b
        && 0 <= i < |tables[a].indexes| && 0 <= j < |tables[b].indexes|
      ensures tables[a].indexes[i].number != tables[b].indexes[j].number
    {
      IndexesTold(a, i);
      IndexesTold(b, j);
    }
  }

  function ChangeOf(put: Put): Columns.Change {
    Columns.Change(PlaceOf(put.Key()), if put.value.Some? then Some(RowOf(put.value.value, put.Key())) else None)
  }

  function ChangesOf(puts: seq<Put>): seq<Columns.Change> {
    seq(|puts|, i requires 0 <= i < |puts| => ChangeOf(puts[i]))
  }

  /** The store has a record at each entry's place, of what it is about and of its columns. */
  ghost predicate LaidOut(entries: Db, store: Columns.Store) {
    && (forall key: Key | key in entries && key.Entry? :: PlaceOf(key) in store && NamedAs(store[PlaceOf(key)], key, entries[key]))
    && forall place | place in store :: exists key :: AtPlaceOf(entries, key, place)
  }

  ghost predicate NamedAs(r: Columns.Record, key: Key, value: Value)
    requires key.Entry?
  {
    r.id == AboutOf(value) && KeepsRow(r.row, RowOf(value, key).row)
  }

  predicate KeepsRow(laid: Columns.Row, row: Columns.Row) {
    forall c | c in row :: c in laid && laid[c] == row[c]
  }

  lemma OfItsQueue(r: Columns.Record, key: Key, value: Value)
    requires key.Entry? && NamedAs(r, key, value)
    ensures "queue" in r.row && r.row["queue"] == Encoding.Ident(key.queue)
  {
    assert "queue" in RowOf(value, key).row;
  }

  /** Only when it was held is set by Xmip Storage. */
  lemma StampKeeps(put: Put, before: Option<Columns.Record>, now: nat)
    requires put.value.Some?
    ensures var row := RowOf(put.value.value, put.Key());
            KeepsRow(Columns.Stamped(QueueTables()[KindOf(put.kind)], row, before, now).row, row.row)
  {
    assert "held_at" !in RowOf(put.value.value, put.Key()).row;
  }

  ghost predicate AtPlaceOf(entries: Db, key: Key, place: Columns.Place) {
    key in entries && key.Entry? && PlaceOf(key) == place
  }

  lemma PlacesTold(a: Key, b: Key)
    requires a.Entry? && b.Entry? && PlaceOf(a) == PlaceOf(b)
    ensures a == b
  {
    assert PlaceOf(a).key[0] == a.queue && PlaceOf(a).key[1] == a.place;
    assert PlaceOf(b).key[0] == b.queue && PlaceOf(b).key[1] == b.place;
  }

  /** A put of an entry of its own is a record of names of its own. */
  lemma PutNamesNew(entries: Db, store: Columns.Store, put: Put)
    requires LaidOut(entries, store) && PutOk(entries, put)
    ensures Columns.NamesNew(QueueTables(), store, ChangeOf(put))
  {
    if put.value.Some? {
      var change := ChangeOf(put);
      var t := QueueTables()[change.place.kind];
      assert "queue" in t.named;
      forall other | other in store && other != change.place && other.kind == change.place.kind
        ensures !Columns.SameNames(t, store[other], change.value.value)
      {
        NamesApart(entries, store, put, other);
      }
    }
  }

  lemma NamesApart(entries: Db, store: Columns.Store, put: Put, other: Columns.Place)
    requires LaidOut(entries, store) && PutOk(entries, put) && put.value.Some?
    requires other in store && other != ChangeOf(put).place && other.kind == ChangeOf(put).place.kind
    ensures !Columns.SameNames(QueueTables()[other.kind], store[other], ChangeOf(put).value.value)
  {
    var change := ChangeOf(put);
    assert "queue" in QueueTables()[other.kind].named;
    var key :| AtPlaceOf(entries, key, other);
    OfItsQueue(store[other], key, entries[key]);
    assert change.value.value.id == AboutOf(put.value.value);
    if key.queue == put.queue {
      assert key != put.Key() && key.kind == put.kind;
    } else {
      assert store[other].row["queue"] != change.value.value.row["queue"];
    }
  }

  lemma PutLaidOut(entries: Db, store: Columns.Store, put: Put, now: nat)
    requires LaidOut(entries, store) && PutOk(entries, put)
    ensures var change := ChangeOf(put);
            LaidOut(Write(entries, put.Key(), put.value),
                    Columns.WithChange(store, change.place, Columns.Kept(QueueTables(), store, change, now)))
  {
    var change := ChangeOf(put);
    var kept := Columns.Kept(QueueTables(), store, change, now);
    var after, laid := Write(entries, put.Key(), put.value), Columns.WithChange(store, change.place, kept);
    if put.value.Some? {
      StampKeeps(put, Columns.Read(store, change.place), now);
      assert NamedAs(kept.value, put.Key(), put.value.value);
    }
    forall key: Key | key in after && key.Entry? ensures PlaceOf(key) in laid && NamedAs(laid[PlaceOf(key)], key, after[key]) {
      if key != put.Key() {
        if PlaceOf(key) == PlaceOf(put.Key()) {
          PlacesTold(key, put.Key());
        }
      }
    }
    forall place | place in laid ensures exists key :: AtPlaceOf(after, key, place) {
      if place == change.place {
        assert AtPlaceOf(after, put.Key(), place);
      } else {
        var key :| AtPlaceOf(entries, key, place);
        assert AtPlaceOf(after, key, place);
      }
    }
  }

  lemma {:induction false} PutsNamesNew(entries: Db, store: Columns.Store, puts: seq<Put>, now: nat)
    requires LaidOut(entries, store) && AllPutOk(entries, puts)
    ensures Columns.AllNamesNew(QueueTables(), store, ChangesOf(puts), now)
    ensures LaidOut(PutAll(entries, puts), Columns.After(QueueTables(), store, ChangesOf(puts), now))
    decreases |puts|
  {
    hide LaidOut, QueueTables, Columns.NamesNew, Columns.Kept, Columns.WithChange;
    if puts != [] {
      assert PutOk(entries, puts[0]);
      PutNamesNew(entries, store, puts[0]);
      PutLaidOut(entries, store, puts[0], now);
      var change := ChangeOf(puts[0]);
      var next := Columns.WithChange(store, change.place, Columns.Kept(QueueTables(), store, change, now));
      PutsNamesNew(Write(entries, puts[0].Key(), puts[0].value), next, puts[1..], now);
      assert ChangesOf(puts)[0] == change && ChangesOf(puts)[1..] == ChangesOf(puts[1..]);
    }
  }

  // ---- The index after every run. ----

  /** Operations decided in one batch, and the time its records are stamped at. */
  datatype Group = Group(asked: seq<Asked>, stamp: nat)

  function GroupPuts(ledger: Ledger, asked: seq<Asked>): seq<Put>
    decreases |asked|
  {
    if asked == [] then []
    else AskedPuts(ledger, asked[0]) + GroupPuts(After(ledger, asked[0].op, asked[0].moment), asked[1..])
  }

  lemma {:induction false} GroupComes(ledger: Ledger, asked: seq<Asked>)
    requires Sound(ledger.db)
    ensures Sound(RunAsked(ledger, asked).db) && Comes(ledger.db, GroupPuts(ledger, asked), RunAsked(ledger, asked).db)
    decreases |asked|
  {
    hide Sound, Comes, AskedPuts, After;
    if asked == [] {
      ComesNone(ledger.db, ledger.db);
    } else {
      AfterSound(ledger, asked[0]);
      AfterComes(ledger, asked[0]);
      var after := After(ledger, asked[0].op, asked[0].moment);
      GroupComes(after, asked[1..]);
      ComesThen(ledger.db, AskedPuts(ledger, asked[0]), after.db, GroupPuts(after, asked[1..]), RunAsked(ledger, asked).db);
    }
  }

  /** What each batch changes at the queues' places. */
  function BatchesOf(ledger: Ledger, groups: seq<Group>): seq<Columns.WriteBatch>
    decreases |groups|
  {
    if groups == [] then []
    else
      [Columns.WriteBatch(ChangesOf(GroupPuts(ledger, groups[0].asked)), groups[0].stamp)]
      + BatchesOf(RunAsked(ledger, groups[0].asked), groups[1..])
  }

  function RunGroups(ledger: Ledger, groups: seq<Group>): Ledger
    decreases |groups|
  {
    if groups == [] then ledger else RunGroups(RunAsked(ledger, groups[0].asked), groups[1..])
  }

  lemma {:induction false} RunsIndexed(ledger: Ledger, groups: seq<Group>, store: Columns.Store, index: Columns.IndexStore)
    requires Sound(ledger.db) && LaidOut(EntriesOf(ledger.db), store)
    requires Columns.TablesOk(QueueTables()) && Columns.StoreOk(QueueTables(), store)
    requires Columns.OwnNames(QueueTables(), store) && Columns.Exact(QueueTables(), store, index)
    requires Columns.BatchesOk(QueueTables(), BatchesOf(ledger, groups))
    ensures var (after, now) := Columns.AllAfter(QueueTables(), store, index, BatchesOf(ledger, groups));
            && LaidOut(EntriesOf(RunGroups(ledger, groups).db), after)
            && Columns.StoreOk(QueueTables(), after) && Columns.Exact(QueueTables(), after, now)
    decreases |groups|
  {
    hide Sound, LaidOut, QueueTables, Columns.TablesOk, Columns.StoreOk, Columns.OwnNames, Columns.Exact;
    hide Columns.After, Columns.IndexAfter, Columns.AllNamesNew, Columns.ChangesOk, GroupPuts, RunAsked, Encoding.Pow256;
    if groups != [] {
      var one := groups[0];
      GroupComes(ledger, one.asked);
      var puts := GroupPuts(ledger, one.asked);
      PutsNamesNew(EntriesOf(ledger.db), store, puts, one.stamp);
      var batches := BatchesOf(ledger, groups);
      assert batches[0] == Columns.WriteBatch(ChangesOf(puts), one.stamp) && batches[0] in batches;
      var changes := ChangesOf(puts);
      Columns.StaysOk(QueueTables(), store, changes, one.stamp);
      Columns.WrittenExact(QueueTables(), store, index, changes, one.stamp);
      var after := RunAsked(ledger, one.asked);
      assert batches[1..] == BatchesOf(after, groups[1..]);
      RunsIndexed(after, groups[1..], Columns.After(QueueTables(), store, changes, one.stamp),
                  Columns.IndexAfter(QueueTables(), store, index, changes, one.stamp));
    }
  }

  /** In every run of operations from an empty database, in whatever batches, the indexes of the
      queues hold an entry of each entry the queues hold, and no other: no hypothesis but that
      each identifier, place and time is of its column's width. */
  lemma EveryRunIndexed(groups: seq<Group>)
    requires Columns.BatchesOk(QueueTables(), BatchesOf(Ledger(map[], 0), groups))
    ensures Columns.TablesOk(QueueTables()) && Columns.StoreOk(QueueTables(), map[])
    ensures var (after, now) := Columns.AllAfter(QueueTables(), map[], map[], BatchesOf(Ledger(map[], 0), groups));
            && LaidOut(EntriesOf(RunGroups(Ledger(map[], 0), groups).db), after)
            && Columns.StoreOk(QueueTables(), after) && Columns.Exact(QueueTables(), after, now)
  {
    EmptySound();
    QueueTablesOk();
    RunsIndexed(Ledger(map[], 0), groups, map[], map[]);
  }
}
