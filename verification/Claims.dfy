/** What a claim asked for, renewed or given back is answered, and what is then stored, read from
    the record the Message has (`claim.rs`, `commit.rs`). */
module Claims {
  import opened Wrappers
  import opened Records
  import opened Steps
  import opened Operations
  import opened Shapes

  // ---- The record a Message has. ----

  /** The last claim taken on it, where one was. */
  function Last(db: Db, journey: Id): Option<Stored> {
    match Read(db, ClaimOn(journey))
    case Some(ClaimV(stored)) => Some(stored)
    case _ => None
  }

  /** No claim on it is held at `now`: none was taken, the last ended, or its lease ran out. */
  predicate Unheld(db: Db, journey: Id, now: int) {
    match Last(db, journey)
    case None => true
    case Some(stored) => stored.standing != Holding || stored.claim.until < now
  }

  /** `nanos` on from `now`, as far as an i128 goes. */
  function Later(now: int, nanos: nat): int {
    if now + nanos > 0x7FFF_FFFF_FFFF_FFFF_FFFF_FFFF_FFFF_FFFF then 0x7FFF_FFFF_FFFF_FFFF_FFFF_FFFF_FFFF_FFFF
    else if now + nanos < -0x8000_0000_0000_0000_0000_0000_0000_0000 then -0x8000_0000_0000_0000_0000_0000_0000_0000
    else now + nanos
  }

  /** How many holders the Message has had, as its last claim's fence counts them. */
  function HoldersOf(last: Option<Stored>): nat {
    match last
    case None => 0
    case Some(stored) => stored.claim.fence % 0x1_0000_0000
  }

  /** `taken` is the claim asked for, until then, fenced as the next holder's of the epoch. */
  predicate IsTaken(taken: Claim, asked: Claim, last: Option<Stored>, epoch: nat, until: int) {
    && taken.journey == asked.journey && taken.holder == asked.holder && taken.token == asked.token
    && taken.until == until
    && taken.fence / 0x1_0000_0000 == epoch % 0x1_0000_0000
    && taken.fence % 0x1_0000_0000 == (if HoldersOf(last) < 0xFFFF_FFFF then HoldersOf(last) + 1 else 0xFFFF_FFFF)
  }

  lemma StoredIsLast(db: Db, journey: Id)
    requires Typed(db)
    ensures StoredOn(db, journey) == Ok(Last(db, journey))
  {
  }

  lemma HalvesOf(epoch: nat, count: nat)
    requires epoch < 0x1_0000_0000 && count < 0x1_0000_0000
    ensures (epoch * 0x1_0000_0000 + count) / 0x1_0000_0000 == epoch
    ensures (epoch * 0x1_0000_0000 + count) % 0x1_0000_0000 == count
  {
  }

  lemma FencedNext(last: Option<Stored>, asked: Claim, epoch: nat, until: int)
    ensures IsTaken(asked.(fence := Fence(epoch, last), until := until), asked, last, epoch, until)
  {
    var count := HoldersOf(last);
    HalvesOf(epoch % HOLDERS, if count + 1 > U32_MAX then U32_MAX else count + 1);
  }

  // ---- A claim asked for. ----

  /** Asked for where none is held, whoever held the last: it is taken and stored. */
  lemma UnheldIsTaken(ledger: Ledger, asked: Claim, leaseNanos: nat, moment: Moment) returns (taken: Claim)
    requires Typed(ledger.db) && Unheld(ledger.db, asked.journey, moment.now)
    ensures IsTaken(taken, asked, Last(ledger.db, asked.journey), moment.epoch, Later(moment.now, leaseNanos))
    ensures Decide(ledger, TakeClaim(asked, leaseNanos), moment)
         == Ok(Decision(OneClaim(Some(taken)),
                        Ledger(ledger.db[ClaimOn(asked.journey) := ClaimV(Stored(taken, Holding))], ledger.next)))
  {
    var last := Last(ledger.db, asked.journey);
    StoredIsLast(ledger.db, asked.journey);
    FencedNext(last, asked, moment.epoch, SaturatingAdd(moment.now, leaseNanos));
    taken := asked.(fence := Fence(moment.epoch, last), until := SaturatingAdd(moment.now, leaseNanos));
    RunsOne(ledger.db, GrantClaim(asked, moment.now, SaturatingAdd(moment.now, leaseNanos), moment.epoch));
    hide RunSteps;
  }

  /** Asked for where one is held: answered to its own token, to no other, and nothing changes. */
  lemma HeldIsKept(ledger: Ledger, asked: Claim, leaseNanos: nat, moment: Moment)
    requires Typed(ledger.db) && !Unheld(ledger.db, asked.journey, moment.now)
    ensures var held := Last(ledger.db, asked.journey).value.claim;
            Decide(ledger, TakeClaim(asked, leaseNanos), moment)
            == Ok(Decision(OneClaim(if held.token == asked.token then Some(held) else None), ledger))
  {
    StoredIsLast(ledger.db, asked.journey);
    RunsOne(ledger.db, GrantClaim(asked, moment.now, SaturatingAdd(moment.now, leaseNanos), moment.epoch));
    hide RunSteps;
  }

  // ---- Claims renewed. ----

  /** It is its holder's still, its lease run out or not: the last taken, not given back. */
  predicate StillHolds(db: Db, claim: Claim) {
    match Last(db, claim.journey)
    case None => false
    case Some(stored) =>
      stored.standing == Holding && stored.claim.token == claim.token && stored.claim.fence == claim.fence
  }

  function Longer(held: Claim, until: int): Claim {
    held.(until := if held.until < until then until else held.until)
  }

  /** Each still its holder's, for its lease from now or as long as it was, in the order asked. */
  function StillRenewed(db: Db, claims: seq<Claim>, until: int): seq<Claim> {
    if claims == [] then []
    else
      (if StillHolds(db, claims[0]) then [Longer(Last(db, claims[0].journey).value.claim, until)] else [])
      + StillRenewed(db, claims[1..], until)
  }

  /** What the records are once the claims are renewed. */
  ghost predicate RenewedIn(db: Db, after: Db, claims: seq<Claim>, until: int) {
    && Typed(after)
    && (forall key: Key | !key.ClaimOn? :: Read(after, key) == Read(db, key))
    && forall journey: Id :: RecordRenewed(db, after, claims, until, journey)
  }

  ghost predicate RecordRenewed(db: Db, after: Db, claims: seq<Claim>, until: int, journey: Id) {
    Last(after, journey)
    == if exists claim :: claim in claims && claim.journey == journey && StillHolds(db, claim)
       then Some(Stored(Longer(Last(db, journey).value.claim, until), Holding)) else Last(db, journey)
  }

  lemma RenewOne(db: Db, claim: Claim, until: int)
    requires Typed(db)
    ensures DoStep(db, RenewClaim(claim, until)).Ok? && Typed(DoStep(db, RenewClaim(claim, until)).value)
    ensures var after := DoStep(db, RenewClaim(claim, until)).value;
            && (forall key: Key | key != ClaimOn(claim.journey) :: Read(after, key) == Read(db, key))
            && Last(after, claim.journey)
               == if StillHolds(db, claim) then Some(Stored(Longer(Last(db, claim.journey).value.claim, until), Holding))
                  else Last(db, claim.journey)
  {
    StoredIsLast(db, claim.journey);
  }

  /** Renewed or not, a record is held by whom it was, and as long as it is renewed to. */
  ghost predicate AsRenewed(db: Db, after: Db, until: int) {
    forall journey: Id ::
      Last(after, journey) == Last(db, journey)
      || (Last(db, journey).Some? && Last(db, journey).value.standing == Holding
          && Last(after, journey) == Some(Stored(Longer(Last(db, journey).value.claim, until), Holding)))
  }

  lemma {:induction false} StillTheSame(db: Db, after: Db, claims: seq<Claim>, until: int)
    requires AsRenewed(db, after, until)
    ensures StillRenewed(after, claims, until) == StillRenewed(db, claims, until)
    decreases |claims|
  {
    if claims != [] {
      StillTheSame(db, after, claims[1..], until);
    }
  }

  lemma RecordSame(db: Db, one: Db, after: Db, claims: seq<Claim>, until: int, journey: Id)
    requires claims != [] && AsRenewed(db, one, until)
    requires Last(one, journey)
          == if claims[0].journey == journey && StillHolds(db, claims[0])
             then Some(Stored(Longer(Last(db, journey).value.claim, until), Holding)) else Last(db, journey)
    requires RecordRenewed(one, after, claims[1..], until, journey)
    ensures RecordRenewed(db, after, claims, until, journey)
  {
    assert forall claim :: claim in claims <==> claim == claims[0] || claim in claims[1..];
    assert forall claim: Claim | claim.journey == journey :: StillHolds(one, claim) <==> StillHolds(db, claim);
    assert claims[0] in claims;
    if claim :| claim in claims[1..] && claim.journey == journey && StillHolds(db, claim) {
      assert claim in claims && StillHolds(one, claim);
    }
  }

  lemma {:induction false} RenewsAll(db: Db, claims: seq<Claim>, until: int)
    requires Typed(db)
    ensures Renewed(db, claims, until) == Ok(StillRenewed(db, claims, until))
    ensures RunSteps(db, RenewSteps(claims, until)).Ok?
    ensures RenewedIn(db, RunSteps(db, RenewSteps(claims, until)).value, claims, until)
    decreases |claims|
  {
    hide StillHolds, Longer;
    if claims == [] {
      RunsNone(db);
    } else {
      RenewOne(db, claims[0], until);
      var one := DoStep(db, RenewClaim(claims[0], until)).value;
      RenewLeaves(db, claims[0], until);
      StillTheSame(db, one, claims[1..], until);
      RenewsAll(one, claims[1..], until);
      RenewFirst(db, claims, until);
      var after := RunSteps(db, RenewSteps(claims, until)).value;
      forall journey: Id ensures RecordRenewed(db, after, claims, until, journey) {
        assert RecordRenewed(one, after, claims[1..], until, journey);
        assert claims[0].journey != journey ==> Last(one, journey) == Last(db, journey);
        RecordSame(db, one, after, claims, until, journey);
      }
    }
  }

  lemma RenewLeaves(db: Db, claim: Claim, until: int)
    requires Typed(db)
    ensures DoStep(db, RenewClaim(claim, until)).Ok? && AsRenewed(db, DoStep(db, RenewClaim(claim, until)).value, until)
  {
    RenewOne(db, claim, until);
  }

  lemma RenewFirst(db: Db, claims: seq<Claim>, until: int)
    requires Typed(db) && claims != [] && DoStep(db, RenewClaim(claims[0], until)).Ok?
    ensures var one := DoStep(db, RenewClaim(claims[0], until)).value;
            && RunSteps(db, RenewSteps(claims, until)) == RunSteps(one, RenewSteps(claims[1..], until))
            && (Renewed(one, claims[1..], until) == Ok(StillRenewed(db, claims[1..], until)) ==>
                  Renewed(db, claims, until) == Ok(StillRenewed(db, claims, until)))
  {
    var steps := RenewSteps(claims, until);
    assert steps[0] == RenewClaim(claims[0], until) && steps[1..] == RenewSteps(claims[1..], until);
    StoredIsLast(db, claims[0].journey);
    var rest := StillRenewed(db, claims[1..], until);
    assert [] + rest == rest;
  }

  /** Every claim still its holder's is renewed, for the lease asked from now or as long as it had,
      and answered; one that is not is passed over, and no other record changes. */
  lemma RenewsStill(ledger: Ledger, claims: seq<Claim>, leaseNanos: nat, moment: Moment)
    requires Typed(ledger.db)
    ensures var until := Later(moment.now, leaseNanos);
            var decided := Decide(ledger, RenewClaims(claims, leaseNanos), moment);
            && decided.Ok? && decided.value.done == Claims(StillRenewed(ledger.db, claims, until))
            && RenewedIn(ledger.db, decided.value.after.db, claims, until) && decided.value.after.next == ledger.next
  {
    hide RunSteps, Renewed, RenewedIn, StillRenewed;
    RenewsAll(ledger.db, claims, Later(moment.now, leaseNanos));
  }

  // ---- A claim given back. ----

  /** Given back by its holder, and by no other: it is stored as released. */
  lemma GivenBack(ledger: Ledger, claim: Claim, moment: Moment)
    requires Typed(ledger.db)
    ensures Decide(ledger, ReleaseClaim(claim), moment)
         == Ok(if StillHolds(ledger.db, claim)
               then Decision(Yes(true),
                             Ledger(ledger.db[ClaimOn(Last(ledger.db, claim.journey).value.claim.journey) :=
                                                ClaimV(Stored(Last(ledger.db, claim.journey).value.claim, Released))],
                                    ledger.next))
               else Decision(Yes(false), ledger))
  {
    StoredIsLast(ledger.db, claim.journey);
    RunsNone(ledger.db);
    if StillHolds(ledger.db, claim) {
      RunsOne(ledger.db, SetClaim(Stored(Last(ledger.db, claim.journey).value.claim, Released)));
    }
    hide RunSteps;
  }
}
