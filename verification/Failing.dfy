/** Runs in which a Message's mark and the index of failed Messages part, and in which a failed
    Message waits for a retry (`hand_on.rs`, `failed.rs`, `hold.rs`). */
module Failing {
  import opened Wrappers
  import opened Records
  import opened Queues
  import opened Holds
  import opened Steps
  import opened Operations
  import opened Shapes
  import opened Frames
  import opened Lines
  import opened Spots
  import opened Conserved
  import opened Once
  import opened Repeats
  import opened Moves
  import opened Releasing

  const RECORD := JourneyRecord(2, "", None, true, None, false)

  /** The Journey 2 opened, its Message queued in 1. */
  const QUEUES := Publication(MessageRecord(1, ""), [RECORD], [Hold(1, 2, "")], None, AuditEntry(0, 0, ""), [], 0)

  const AT := Moment(0, 1)

  const CLAIM := Claim(2, "", 3, 0, HOLDERS + 1)

  /** Queued, then claimed. */
  function Claimed(): seq<Asked> {
    [Asked(Publishing(QUEUES), AT), Asked(TakeClaim(CLAIM, 0), AT)]
  }

  /** It fails in the queue, and its claim is kept. */
  const FAILS := HandOn(CLAIM, RECORD, [], [], [], [], [], Some(Failure(1, "")), [], None, Some(0))

  /** It leaves the queue, not cleared there. */
  const LEAVES := HandOn(CLAIM, RECORD, [], [], [1], [], [], None, [], None, None)

  /** It fails in the queue, and is to wait there. */
  const FAILS_AND_WAITS := FAILS.(waits := Some(Waiting(1, 5)))

  lemma QueuedAt() returns (ledger: Ledger)
    ensures ledger == After(Ledger(map[], 0), Publishing(QUEUES), AT) && Sound(ledger.db) && ClaimsNamed(ledger.db)
    ensures StoredOn(ledger.db, 2) == Ok(None) && FailedOf(ledger.db, 1, 2).None?
    ensures HeldOf(ledger.db, 1, 2).Some? && !HeldOf(ledger.db, 1, 2).value.failed
  {
    var empty, asked := Ledger(map[], 0), Asked(Publishing(QUEUES), AT);
    ledger := After(empty, Publishing(QUEUES), AT);
    EmptySound();
    AfterSound(empty, asked);
    AfterNamed(empty, asked);
    LeavesClaim(empty, asked, 2);
    assert QUEUES.held[0] == Hold(1, 2, "");
    assert Named(QUEUES.held, 1, 2);
    OpensLetGoWhere(empty, asked, 1, 2);
    assert [RECORD][1..] == [];
    hide After, Releases, Sound;
    PublishOpens(empty, QUEUES, AT, 1, 2);
  }

  lemma ClaimedAt() returns (ledger: Ledger)
    ensures ledger == RunAsked(Ledger(map[], 0), Claimed()) && Sound(ledger.db) && ClaimsNamed(ledger.db)
    ensures StoredOn(ledger.db, 2) == Ok(Some(Stored(CLAIM, Holding))) && FailedOf(ledger.db, 1, 2).None?
    ensures HeldOf(ledger.db, 1, 2).Some? && !HeldOf(ledger.db, 1, 2).value.failed
  {
    var before := QueuedAt();
    var asked := Asked(TakeClaim(CLAIM, 0), AT);
    ledger := After(before, TakeClaim(CLAIM, 0), AT);
    assert Claimed()[1..] == [asked] && [asked][1..] == [];
    AfterSound(before, asked);
    AfterNamed(before, asked);
    RunsOne(before.db, GrantClaim(CLAIM, 0, 0, 1));
    hide Sound, HeldOf, FailedOf;
    ElseOpens(before, asked, 1, 2);
  }

  /** Failed there, it is in the index as it is marked; its claim held on. */
  lemma FailedAt() returns (ledger: Ledger)
    ensures ledger == RunAsked(Ledger(map[], 0), Claimed() + [Asked(HandingOn(FAILS), AT)]) && Sound(ledger.db)
    ensures StoredOn(ledger.db, 2) == Ok(Some(Stored(CLAIM, Holding)))
    ensures HeldOf(ledger.db, 1, 2).Some? && FailedOf(ledger.db, 1, 2).Some? && Agrees(ledger.db, 1, 2)
  {
    var before := ClaimedAt();
    var asked := Asked(HandingOn(FAILS), AT);
    ledger := After(before, HandingOn(FAILS), AT);
    RunsThen(Ledger(map[], 0), Claimed(), asked);
    hide Sound, HeldOf, FailedOf, After, RunAsked;
    AfterSound(before, asked);
    HandOnTakes(before, FAILS, AT);
    TookLeaves(before, FAILS, AT);
    LetsGoWhere(before.db, FAILS, 1, 2);
    hide LetsGo;
    var moved := HandOnSpot(before, FAILS, AT, 1, 2);
  }

  lemma {:induction false} RunsThen(ledger: Ledger, asked: seq<Asked>, last: Asked)
    ensures RunAsked(ledger, asked + [last]) == After(RunAsked(ledger, asked), last.op, last.moment)
    decreases |asked|
  {
    if asked == [] {
      assert [] + [last] == [last] && [last][1..] == [];
    } else {
      assert (asked + [last])[0] == asked[0] && (asked + [last])[1..] == asked[1..] + [last];
      RunsThen(After(ledger, asked[0].op, asked[0].moment), asked[1..], last);
    }
  }

  /** A run to a hand-on that takes a failed Message from its queue, where the index of failed
      Messages is left naming it. */
  lemma LeavesUncleared()
    ensures var ledger := RunAsked(Ledger(map[], 0), Claimed() + [Asked(HandingOn(FAILS), AT)]);
            var after := After(ledger, HandingOn(LEAVES), AT).db;
            && Sound(ledger.db) && TookEffect(ledger, LEAVES, AT) && Agrees(ledger.db, 1, 2)
            && HeldOf(after, 1, 2).None? && FailedOf(after, 1, 2).Some? && !Agrees(after, 1, 2)
  {
    var ledger := FailedAt();
    hide Sound, HeldOf, FailedOf, After, RunAsked;
    HandOnTakes(ledger, LEAVES, AT);
    var moved := HandOnSpot(ledger, LEAVES, AT, 1, 2);
    assert 1 in LEAVES.leaves;
  }

  /** A run to a hand-on that fails its Message and has it wait in the same queue: marked failed,
      it is due again. */
  lemma FailsAndWaits()
    ensures var ledger := RunAsked(Ledger(map[], 0), Claimed());
            var after := After(ledger, HandingOn(FAILS_AND_WAITS), AT).db;
            && Sound(ledger.db) && TookEffect(ledger, FAILS_AND_WAITS, AT) && Quiet(ledger.db, 1, 2)
            && HeldOf(after, 1, 2).Some? && HeldOf(after, 1, 2).value.failed && HeldOf(after, 1, 2).value.due == Some(5)
            && !Quiet(after, 1, 2)
  {
    var ledger := ClaimedAt();
    hide Sound, HeldOf, FailedOf, After, RunAsked;
    HandOnTakes(ledger, FAILS_AND_WAITS, AT);
    LetsGoWhere(ledger.db, FAILS_AND_WAITS, 1, 2);
    hide LetsGo;
    var moved := HandOnSpot(ledger, FAILS_AND_WAITS, AT, 1, 2);
  }
}
