/** The zone transactions of the Signal protocol store, as a state machine.

    `withZone` is a re-entrant lock around asynchronous bodies. A transition below is one
    stretch of code between two awaits, so calls that overlap in the program interleave here.
    Writes are staged, handed to the database as one batch, and copied into the caches only
    after the database answered. */
module ZoneProtocol {
  import opened KyberTriples
  import opened Options

  type Record = seq<Byte>

  ghost const SOME_KEY := PreKeyId(Aci(seq(36, _ => '0')), 0)

  type KeyId = id: PreKeyId | id.Valid() ghost witness SOME_KEY
  type KyberTriple = t: Triple | t.Valid() ghost witness Triple(SOME_KEY, 0, [])

  datatype ZoneOptions = ZoneOptions(
    kyberPreKeysToRemove: bool, preKeysToRemove: bool, senderKeys: bool, sessions: bool, unprocessed: bool)

  /** Zones are compared by identity, which `id` stands for. */
  datatype Zone = Zone(id: nat, options: ZoneOptions)

  /** One call of `withZone`. */
  datatype Call = Call(id: nat, zone: Zone)

  datatype Pending = Pending(
    kyberPreKeysToRemove: set<KeyId>, preKeysToRemove: set<KeyId>,
    senderKeys: map<string, Record>, sessions: map<string, Record>,
    unprocessed: map<string, Record>, kyberTriples: map<string, KyberTriple>)

  const NOTHING := Pending({}, {}, map[], map[], map[], map[])

  datatype Db = Db(
    kyberPreKeys: map<KeyId, Record>, preKeys: map<KeyId, Record>,
    senderKeys: map<string, Record>, sessions: map<string, Record>,
    unprocessed: map<string, Record>, triples: set<KyberTriple>)

  datatype Cache = Cache(
    kyberPreKeys: map<KeyId, Record>, preKeys: map<KeyId, Record>,
    senderKeys: map<string, Record>, sessions: map<string, Record>, triples: set<string>)

  datatype Write =
    | RemoveKyberPreKeys(ids: set<KeyId>)
    | RemovePreKeys(ids: set<KeyId>)
    | SaveSenderKey(id: string, data: Record)
    | StoreSession(id: string, data: Record)
    | AddUnprocessed(items: map<string, Record>)
    | MarkTriple(triple: KyberTriple)

  /** Data swapped out by a commit, and the call whose code awaits the answer. */
  datatype Batch = Batch(owner: Call, data: Pending)

  /** `running`: body not finished. `closing`: body finished at depth 1, awaiting commit or revert.
      `stuck`: the commit after the body was refused, so the call never leaves. */
  datatype State = State(
    current: Option<Zone>, depth: int, queue: seq<Call>,
    running: set<Call>, closing: set<Call>, stuck: set<Call>,
    pending: Pending, cache: Cache, db: Db, unwritten: seq<Batch>, written: seq<Batch>)
  {
    function Active(): set<Call> { running + closing + stuck }

    predicate Idle(c: Call) {
      && (forall b | b in unwritten :: b.owner != c)
      && (forall b | b in written :: b.owner != c)
    }

    predicate InFlight() { unwritten != [] || written != [] }
  }

  datatype Event =
    | Arrive(call: Call)
    | Stage(call: Call, write: Write)
    | BodyDone(call: Call, ok: bool)
    | DbDone(accepted: bool)
    | Apply
    | Leave(call: Call)

  // ---------- writes ----------

  predicate Supports(zone: Zone, w: Write) {
    match w
    case RemoveKyberPreKeys(_) => zone.options.kyberPreKeysToRemove
    case RemovePreKeys(_) => zone.options.preKeysToRemove
    case SaveSenderKey(_, _) => zone.options.senderKeys
    case StoreSession(_, _) => zone.options.sessions
    case AddUnprocessed(_) => zone.options.unprocessed
    case MarkTriple(_) => zone.options.kyberPreKeysToRemove
  }

  function Staged(p: Pending, w: Write): Pending {
    match w
    case RemoveKyberPreKeys(ids) => p.(kyberPreKeysToRemove := p.kyberPreKeysToRemove + ids)
    case RemovePreKeys(ids) => p.(preKeysToRemove := p.preKeysToRemove + ids)
    case SaveSenderKey(id, data) => p.(senderKeys := p.senderKeys[id := data])
    case StoreSession(id, data) => p.(sessions := p.sessions[id := data])
    case AddUnprocessed(items) => p.(unprocessed := p.unprocessed + items)
    case MarkTriple(t) => p.(kyberTriples := p.kyberTriples[t.CacheKey() := t])
  }

  /** Five of the six collections are cleared, the triples stay. */
  function Reverted(p: Pending): Pending {
    NOTHING.(kyberTriples := p.kyberTriples)
  }

  predicate IsDuplicate(s: State, t: KyberTriple) {
    t.CacheKey() in s.cache.triples || t.CacheKey() in s.pending.kyberTriples
  }

  predicate Rejects(s: State, w: Write) {
    w.MarkTriple? && IsDuplicate(s, w.triple)
  }

  /** One database transaction. Removing a kyber key takes its triples along, and a triple is
      refused when it is known already or its key does not exist. */
  function DbWrite(db: Db, p: Pending): Option<Db> {
    var kyber := db.kyberPreKeys - p.kyberPreKeysToRemove;
    var kept := set t | t in db.triples && t.id !in p.kyberPreKeysToRemove;
    if exists k | k in p.kyberTriples :: p.kyberTriples[k] in kept || p.kyberTriples[k].id !in kyber then None
    else Some(Db(kyber, db.preKeys - p.preKeysToRemove, db.senderKeys + p.senderKeys, db.sessions + p.sessions,
                 db.unprocessed + p.unprocessed, kept + p.kyberTriples.Values))
  }

  /** What the commit does to the caches: triples are added first, then the removed keys' triples
      are dropped by prefix. */
  function CacheApply(c: Cache, p: Pending): Cache {
    Cache(c.kyberPreKeys - p.kyberPreKeysToRemove, c.preKeys - p.preKeysToRemove,
          c.senderKeys + p.senderKeys, c.sessions + p.sessions,
          WithoutPrefixes(c.triples + p.kyberTriples.Keys, p.kyberPreKeysToRemove))
  }

  predicate HasPrefixIn(k: string, ids: set<KeyId>) {
    exists id | id in ids :: StartsWith(k, Prefix(id))
  }

  function WithoutPrefixes(keys: set<string>, ids: set<KeyId>): set<string> {
    set k | k in keys && !HasPrefixIn(k, ids)
  }

  // ---------- transitions ----------

  function Enter(s: State, c: Call): State {
    s.(current := if s.depth == 0 then Some(c.zone) else s.current,
       depth := s.depth + 1, running := s.running + {c})
  }

  /** Length of the longest prefix of calls for the first call's zone. */
  function RunLength(q: seq<Call>): (n: nat)
    ensures n <= |q| && (q != [] ==> n > 0)
    ensures forall i :: 0 <= i < n ==> q[i].zone == q[0].zone
    ensures n < |q| ==> q[n].zone != q[0].zone
  {
    if |q| < 2 then |q|
    else if q[1].zone != q[0].zone then 1
    else 1 + RunLength(q[1..])
  }

  function Members(q: seq<Call>): set<Call> { set c | c in q }

  /** The lock part of leaving: the last one out admits the waiting calls of one zone. */
  function Release(s: State): State {
    if s.depth != 1 then s.(depth := s.depth - 1)
    else if s.queue == [] then s.(depth := 0, current := None)
    else
      var n := RunLength(s.queue);
      s.(depth := n, current := Some(s.queue[0].zone), queue := s.queue[n..],
         running := s.running + Members(s.queue[..n]))
  }

  function Submit(s: State, c: Call): State {
    if s.pending == NOTHING then s
    else s.(pending := NOTHING, unwritten := s.unwritten + [Batch(c, s.pending)])
  }

  function Arrived(s: State, c: Call): State {
    if s.current.Some? && s.current.value != c.zone then s.(queue := s.queue + [c]) else Enter(s, c)
  }

  function StageBy(s: State, c: Call, w: Write): State {
    if Rejects(s, w) then s
    else
      var staged := s.(pending := Staged(s.pending, w));
      if Supports(c.zone, w) then staged else Submit(staged, c)
  }

  function Closed(s: State, c: Call): State {
    s.(running := s.running - {c}, closing := s.closing + {c})
  }

  function FinishBody(s: State, c: Call, ok: bool): State {
    if s.depth != 1 then Release(s.(running := s.running - {c}))
    else if ok then Submit(Closed(s, c), c)
    else Closed(s, c).(pending := Reverted(s.pending))
  }

  /** The database answered the oldest submitted batch. */
  function Answered(s: State, accepted: bool): State
    requires s.unwritten != []
  {
    var b := s.unwritten[0];
    var rest := s.(unwritten := s.unwritten[1..]);
    var outcome := DbWrite(s.db, b.data);
    if accepted && outcome.Some? then rest.(db := outcome.value, written := s.written + [b])
    else if b.owner in s.closing then rest.(closing := s.closing - {b.owner}, stuck := s.stuck + {b.owner})
    else rest
  }

  function Applied(s: State): State
    requires s.written != []
  {
    s.(cache := CacheApply(s.cache, s.written[0].data), written := s.written[1..])
  }

  function Left(s: State, c: Call): State {
    Release(s.(closing := s.closing - {c}))
  }

  predicate Enabled(s: State, e: Event) {
    match e
    case Arrive(c) => c !in s.Active() && c !in s.queue
    case Stage(c, _) => c in s.running && s.Idle(c)
    case BodyDone(c, _) => c in s.running && s.Idle(c)
    case DbDone(_) => s.unwritten != []
    case Apply => s.written != []
    case Leave(c) => c in s.closing && s.Idle(c)
  }

  function Step(s: State, e: Event): State
    requires Enabled(s, e)
  {
    match e
    case Arrive(c) => Arrived(s, c)
    case Stage(c, w) => StageBy(s, c, w)
    case BodyDone(c, ok) => FinishBody(s, c, ok)
    case DbDone(accepted) => Answered(s, accepted)
    case Apply => Applied(s)
    case Leave(c) => Left(s, c)
  }

  /** A run: every event is possible when it happens. */
  predicate Runs(s: State, es: seq<Event>)
    decreases |es|
  {
    es == [] || (Enabled(s, es[0]) && Runs(Step(s, es[0]), es[1..]))
  }

  function Exec(s: State, es: seq<Event>): State
    requires Runs(s, es)
    decreases |es|
  {
    if es == [] then s else Exec(Step(s, es[0]), es[1..])
  }

  // ---------- invariant ----------

  predicate NoDuplicates(q: seq<Call>) {
    forall i, j :: 0 <= i < j < |q| ==> q[i] != q[j]
  }

  ghost predicate LockInv(s: State) {
    && s.depth == |s.running| + |s.closing| + |s.stuck|
    && s.running !! s.closing && s.running !! s.stuck && s.closing !! s.stuck
    && (s.current.None? <==> s.depth == 0)
    && (forall c | c in s.running :: s.current == Some(c.zone))
    && (forall c | c in s.closing :: s.current == Some(c.zone))
    && (forall c | c in s.stuck :: s.current == Some(c.zone))
    && NoDuplicates(s.queue)
    && (forall c | c in s.queue :: c !in s.running && c !in s.closing && c !in s.stuck)
    && (s.queue != [] ==> s.current.Some? && s.current.value != s.queue[0].zone)
    && (forall b | b in s.unwritten :: b.owner in s.running || b.owner in s.closing)
    && (forall b | b in s.written :: b.owner in s.running || b.owner in s.closing)
  }

  /** A call that awaits the database does nothing else meanwhile. */
  ghost predicate OneBatchPerCall(s: State) {
    && (forall i, j :: 0 <= i < j < |s.unwritten| ==> s.unwritten[i].owner != s.unwritten[j].owner)
    && (forall i, j :: 0 <= i < j < |s.written| ==> s.written[i].owner != s.written[j].owner)
    && (forall i, j :: 0 <= i < |s.unwritten| && 0 <= j < |s.written| ==> s.unwritten[i].owner != s.written[j].owner)
  }

  ghost predicate Keyed(p: Pending) {
    forall k | k in p.kyberTriples :: p.kyberTriples[k].CacheKey() == k
  }

  ghost predicate CacheMatches(c: Cache, db: Db) {
    && c.kyberPreKeys == db.kyberPreKeys
    && c.preKeys == db.preKeys
    && c.senderKeys == db.senderKeys
    && c.sessions == db.sessions
    && (forall t | t in db.triples :: t.CacheKey() in c.triples)
    && (forall k | k in c.triples :: exists t | t in db.triples :: t.CacheKey() == k)
  }

  function Replay(c: Cache, bs: seq<Batch>): Cache
    decreases |bs|
  {
    if bs == [] then c else Replay(CacheApply(c, bs[0].data), bs[1..])
  }

  ghost predicate DataInv(s: State) {
    && Keyed(s.pending)
    && (forall b | b in s.unwritten :: Keyed(b.data))
    && (forall b | b in s.written :: Keyed(b.data))
    && CacheMatches(Replay(s.cache, s.written), s.db)
  }

  ghost predicate Inv(s: State) {
    LockInv(s) && DataInv(s)
  }
}
