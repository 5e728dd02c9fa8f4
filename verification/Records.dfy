/** What the runtime database keeps, and where: every record under a key of its own kind.
    Identifiers, tokens and bodies are opaque; times are nanoseconds since the Unix epoch. */
module Records {
  import opened Wrappers

  type Id = nat
  type Body = string

  // The widths the Storage node's arithmetic saturates at.
  const I128_MAX: int := 0x7FFF_FFFF_FFFF_FFFF_FFFF_FFFF_FFFF_FFFF
  const I128_MIN: int := -0x8000_0000_0000_0000_0000_0000_0000_0000
  const U64_MAX: nat := 0xFFFF_FFFF_FFFF_FFFF
  const U32_MAX: nat := 0xFFFF_FFFF

  /** i128's saturating addition. */
  function SaturatingAdd(a: int, b: int): int {
    if a + b > I128_MAX then I128_MAX else if a + b < I128_MIN then I128_MIN else a + b
  }

  /** A time as a column keeps it: none before the epoch, at most what a u64 holds. */
  function Nanos(time: int): nat {
    if time < 0 then 0 else if time > U64_MAX then U64_MAX else time
  }

  function Max(a: int, b: int): int {
    if a < b then b else a
  }

  // Queues: a Message waiting in one, failed in one, or dead in one.

  datatype Hold = Hold(queue: Id, journey: Id, body: Body)

  datatype Held = Held(sequence: nat, hold: Hold, failed: bool, due: Option<int>) {
    /** When it is due, as the index of when each is due keeps it: zero where it is due since
        it was held, otherwise its retry's due time, never before the first nanosecond. */
    function DueAt(): nat {
      match due
      case None => 0
      case Some(time) => if Nanos(time) == 0 then 1 else Nanos(time)
    }
  }

  datatype Failure = Failure(queue: Id, reason: Body)

  datatype FailedEntry =
    FailedEntry(queue: Id, sequence: nat, journey: Id, place: nat, reason: Body, at: int)

  datatype DeadMessage = DeadMessage(queue: Id, message: Id, body: Body)

  datatype DeadEntry = DeadEntry(sequence: nat, message: DeadMessage)

  /** A queue's places: no entry is held before `first`, the next entry takes `next`. */
  datatype Places = Places(first: nat, next: nat, count: nat)

  /** What a queue's index keeps for something placed in it once, or never. */
  datatype Placed = Never | Out | AtPlace(place: nat)

  // Messages, Journeys, claims.

  datatype MessageRecord = MessageRecord(message: Id, body: Body)

  datatype JourneyRecord = JourneyRecord(
    journey: Id, body: Body,
    origin: Option<Id>, open: bool,
    groupDelivery: Option<Id>, groupOpen: bool)

  /** How many open Journeys a holder of places has, and the queues it holds a place in. */
  datatype Origin = Origin(open: nat, queues: seq<Id>)

  datatype Claim = Claim(journey: Id, holder: Body, token: Id, until: int, fence: nat) {
    /** The same holder's token and fence. */
    predicate Is(other: Claim) {
      token == other.token && fence == other.fence
    }
  }

  datatype Standing = Holding | Released | HandedOn

  /** The last claim on a Message, and where it stands. */
  datatype Stored = Stored(claim: Claim, standing: Standing) {
    predicate HeldBy(other: Claim) {
      standing == Holding && claim.Is(other)
    }

    predicate AskedBy(asked: Claim) {
      standing == Holding && claim.token == asked.token
    }
  }

  // Work Process Instances.

  datatype InstanceRecord = InstanceRecord(instance: Id, turns: nat, body: Body)
  datatype InstanceWrite = InstanceWrite(record: InstanceRecord, over: nat)
  datatype InstanceKey = InstanceKey(key: Id, instance: Id)

  // What is asked of the one writer.

  datatype AuditEntry = AuditEntry(id: Id, writer: Id, body: Body)

  datatype Publication = Publication(
    message: MessageRecord, journeys: seq<JourneyRecord>, held: seq<Hold>,
    dead: Option<DeadMessage>, audit: AuditEntry, claims: seq<Claim>, leaseNanos: nat)

  datatype Waiting = Waiting(queue: Id, afterNanos: nat)

  datatype HandOn = HandOn(
    claim: Claim, result: JourneyRecord,
    messages: seq<MessageRecord>, next: seq<JourneyRecord>,
    leaves: seq<Id>, queued: seq<Hold>, requeued: seq<Id>,
    failed: Option<Failure>, cleared: seq<Id>, waits: Option<Waiting>,
    keptForNanos: Option<nat>)

  datatype Turn = Turn(
    handOn: HandOn, instances: seq<InstanceWrite>, keys: seq<InstanceKey>, unkeyed: seq<InstanceKey>)

  datatype Replay = Replay(
    queue: Id, message: Id, journeys: seq<JourneyRecord>, held: seq<Hold>, audit: AuditEntry)

  // The runtime database.

  datatype Kind = HeldLine | FailedLine | DeadLine

  datatype Key =
    | Entry(kind: Kind, queue: Id, place: nat)
    | By(kind: Kind, queue: Id, about: Id)
    | PlacesAt(kind: Kind, queue: Id)
    | JourneyAt(id: Id)
    | MessageAt(id: Id)
    | ClaimOn(id: Id)
    | PublishedAt(id: Id)
    | OriginOf(id: Id)
    | InstanceAt(id: Id)
    | InstanceKeyAt(id: Id)
    | AuditAt(number: nat)
    | KeptAt

  datatype Value =
    | HeldV(held: Held)
    | FailedV(failed: FailedEntry)
    | DeadV(dead: DeadEntry)
    | PlaceV(place: nat)
    | TakenOutV
    | PlacesV(places: Places)
    | JourneyV(journey: JourneyRecord)
    | MessageV(message: MessageRecord)
    | ClaimV(stored: Stored)
    // The digest of what was asked, taken for injective: the Publication itself.
    | PublishedV(publication: Publication)
    | OriginV(origin: Origin)
    | InstanceV(instance: InstanceRecord)
    | InstanceKeyV(owner: Id)
    | AuditV(entry: AuditEntry)
    | NumberV(number: nat)
    // Bytes no record can be read from.
    | Torn

  type Db = map<Key, Value>

  function Read(db: Db, key: Key): Option<Value> {
    if key in db then Some(db[key]) else None
  }

  function Write(db: Db, key: Key, value: Option<Value>): Db {
    match value
    case Some(v) => db[key := v]
    case None => db - {key}
  }
}
