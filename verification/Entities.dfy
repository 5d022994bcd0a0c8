/** The vocabulary of the persistent-entity runtime. */
module Entities {

  datatype Option<+T> = None | Some(value: T)

  datatype Result<+T, +R> = Ok(value: T) | Err(error: R)

  /** Events, entity states and serialized snapshots are the application's. */
  type Event(!new)
  type State(!new)
  type Payload(!new)

  /** Tenant, entity type and entity id: the full identity of an entity. */
  datatype Triple = Triple(tenant: string, entityType: string, entityId: string)

  /** The joined string the snapshot store is keyed by. Not injective. */
  function AggregateId(t: Triple): string {
    t.entityType + "-" + t.entityId
  }

  /** The operation identity a command may carry: which operation, and which request. */
  datatype Identity = Identity(key: string, fingerprint: string)

  /** The durable result of one command: an inclusive version range, or nothing. */
  datatype Outcome = Events(versionFrom: int, versionTo: int) | NoEvents

  datatype OutcomeError = Inverted | Empty

  /** `AggregateOutcome::events`. */
  function EventRange(versionFrom: int, versionTo: int): (r: Result<Outcome, OutcomeError>)
    ensures r.Ok? <==> versionFrom <= versionTo
    ensures r.Ok? ==> r.value == Events(versionFrom, versionTo)
    ensures r == Err(Empty) <==> versionTo + 1 == versionFrom
  {
    if versionTo == versionFrom - 1 then Err(Empty)
    else if versionTo < versionFrom then Err(Inverted)
    else Ok(Events(versionFrom, versionTo))
  }

  /** What a receipt says of an execution that appended `events` at `version`. */
  function OutcomeFor(version: nat, events: seq<Event>): Outcome {
    if events == [] then NoEvents else Events(version + 1, version + |events|)
  }

  datatype Receipt = Receipt(
    aggregateType: string, aggregateId: string, tenant: Option<string>,
    key: string, fingerprint: string, outcome: Outcome)

  /**
   * The application's side of an entity: its initial state, how a batch of events is applied (which
   * may fail), and how a state is written into and read back from a snapshot.
   */
  datatype Entity = Entity(
    initial: State,
    applyEvents: (State, seq<Event>) -> Option<State>,
    encode: State -> Payload,
    decode: Payload -> Option<State>)

  /** Replaying nothing leaves the state alone: the runtime does not call the entity then. */
  function Replay(ent: Entity, s: State, events: seq<Event>): Option<State> {
    if events == [] then Some(s) else ent.applyEvents(s, events)
  }

  /** Applying a batch is applying its parts one after the other. */
  ghost predicate Lawful(ent: Entity) {
    forall s, a, b {:trigger ent.applyEvents(s, a + b)} :: a != [] && b != [] ==>
      ent.applyEvents(s, a + b) ==
      match ent.applyEvents(s, a)
      case None => None
      case Some(m) => ent.applyEvents(m, b)
  }

  /** A state survives being written to a snapshot and read back. */
  ghost predicate RoundTrips(ent: Entity) {
    forall s {:trigger ent.encode(s)} :: ent.decode(ent.encode(s)) == Some(s)
  }

  lemma ReplaySplit(ent: Entity, s: State, a: seq<Event>, b: seq<Event>)
    requires Lawful(ent)
    ensures Replay(ent, s, a + b) ==
      match Replay(ent, s, a)
      case None => None
      case Some(m) => Replay(ent, m, b)
  {
    if a == [] {
      assert a + b == b;
    } else if b == [] {
      assert a + b == a;
    } else {
      assert ent.applyEvents(s, a + b) == Replay(ent, s, a + b);
    }
  }

  /** Unicode White_Space, which `trim` removes. */
  predicate IsSpace(c: char) {
    var n := c as int;
    || 0x09 <= n <= 0x0D || n == 0x20 || n == 0x85 || n == 0xA0 || n == 0x1680
    || 0x2000 <= n <= 0x200A || n == 0x2028 || n == 0x2029 || n == 0x202F || n == 0x205F || n == 0x3000
  }

  /** One by one, as the standard lists them. */
  lemma SpacesAre(c: char)
    ensures IsSpace(c) <==> c as int in {
      0x09, 0x0A, 0x0B, 0x0C, 0x0D, 0x20, 0x85, 0xA0, 0x1680, 0x2000, 0x2001, 0x2002, 0x2003, 0x2004, 0x2005, 0x2006,
      0x2007, 0x2008, 0x2009, 0x200A, 0x2028, 0x2029, 0x202F, 0x205F, 0x3000}
  {
  }

  /** `trim()` leaves nothing. */
  predicate Blank(s: string) {
    forall i :: 0 <= i < |s| ==> IsSpace(s[i])
  }
}
