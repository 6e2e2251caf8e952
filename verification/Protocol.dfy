/** The shared-store protocol: any number of clients of repositories/stream_registry.py,
    stream/manager.py and tasks/dead_stream_cleanup.py, interleaved command by command.

    A client is the command it is about to send and what it has in its local variables.
    One step runs one Redis command (or script, or MULTI/EXEC pipeline) of one client; a
    run is any sequence of steps. Clients may also crash between any two commands. The
    purging delete, which no caller uses, is not a client.
  */
module Protocol {
  import opened Common
  import opened Store
  import Lease

  type ClientId = nat

  datatype Client =
    // create_stream, as start_stream calls it
    | CreateLook(sub: Subreddit, inst: Option<InstanceId>)
    | CreateBackfill(sub: Subreddit, existing: StreamId)
    | CreateIdentity(sub: Subreddit, inst: Option<InstanceId>)
    | CreateReadIdentity(sub: Subreddit, inst: Option<InstanceId>)
    | CreateClaim(sub: Subreddit, inst: Option<InstanceId>, id: StreamId)
    | CreateLost(sub: Subreddit)
    | CreateMeta(sub: Subreddit, inst: Option<InstanceId>, id: StreamId)
    | CreateTrack(sub: Subreddit, inst: Option<InstanceId>, id: StreamId)
    | CreateIndex(sub: Subreddit, at: InstanceId, id: StreamId)
    // the rest of start_stream
    | StartLease(sub: Subreddit, inst: Option<InstanceId>, id: StreamId)
    | StartActivate(sub: Subreddit, inst: Option<InstanceId>, id: StreamId)
    | StartIndex(sub: Subreddit, at: InstanceId, id: StreamId)
    | Started(sub: Subreddit, id: StreamId)
    | AlreadyExists(sub: Subreddit, id: StreamId)
    // delete_stream: `guard` is the scanned row of a sweep, `rest` what it has left to do
    | DeleteRead(id: StreamId, guard: Option<Meta>, rest: seq<Row>)
    | DeleteEval(id: StreamId, sub: Subreddit, owner: Option<InstanceId>, guard: Option<Meta>, rest: seq<Row>)
    | DeleteUnindex(id: StreamId, at: InstanceId, rest: seq<Row>)
    // cleanup: list_streams, then its rows one by one
    | SweepMembers
    | SweepScan(ids: set<StreamId>)
    | SweepPrune(stale: set<StreamId>, rest: seq<Row>)
    | SweepNext(rest: seq<Row>)
    // update_status, heartbeat, request_stop
    | StatusWrite(id: StreamId, status: Status, owner: Option<InstanceId>)
    | StatusIndex(id: StreamId, at: InstanceId)
    | Heartbeat(id: StreamId, at: InstanceId)
    | StopRead(id: StreamId)
    | StopMark(id: StreamId, owner: Option<InstanceId>)
    // a runner: get_stream_by_subreddit, then checkpoints at will
    | WorkerLook(sub: Subreddit)
    | WorkerMeta(sub: Subreddit, id: StreamId)
    | Worker(sub: Subreddit, id: StreamId)
    // refresh_lock and release_lock
    | LeaseRefresh(sub: Subreddit, token: Lease.Token)
    | LeaseRelease(sub: Subreddit, token: Lease.Token)
    | Finished

  /** What the environment supplies to a step: a uuid, a time stamp, the server's clock, the
      iteration order of a set, and the checkpoint a worker writes. */
  datatype Draw = Draw(
    uuid: nat, stamp: Stamp, now: real, order: seq<StreamId>, comment: string, processedAt: string)

  const LEASE_TTL := 60.0

  predicate IsProgram(c: Client) {
    match c
    case CreateLook(_, _) | SweepMembers | StatusWrite(_, _, _) | Heartbeat(_, _) | StopRead(_) | WorkerLook(_) => true
    case LeaseRefresh(_, _) | LeaseRelease(_, _) => true
    case DeleteRead(_, guard, rest) => guard.None? && rest == []
    case _ => false
  }

  predicate NeedsUuid(c: Client) { c.CreateIdentity? || c.StartLease? }

  /** The rows of the pipeline's answer, in the order the set was iterated. */
  function Scan(st: Store, ids: set<StreamId>, order: seq<StreamId>): seq<Row> {
    if order == [] then [] else
    var id := order[|order| - 1];
    Scan(st, ids, order[..|order| - 1]) + if id in ids && id in st.meta then [Row(id, st.meta[id])] else []
  }

  /** The loop of cleanup on its next row: only dead rows that carry an id are deleted. */
  function NextRow(rest: seq<Row>): Client {
    if rest == [] then Finished
    else if IsDead(rest[0].meta.status) && rest[0].meta.subreddit.Some?
    then DeleteRead(rest[0].id, Some(rest[0].meta), rest[1..])
    else SweepNext(rest[1..])
  }

  function GuardStatus(guard: Option<Meta>): Option<Status> {
    if guard.Some? then Some(guard.value.status) else None
  }

  function GuardStamp(guard: Option<Meta>): Option<Stamp> {
    if guard.Some? then Some(guard.value.updatedAt) else None
  }

  predicate EvalApplies(st: Store, c: Client)
    requires c.DeleteEval?
  {
    DeleteApplies(st, c.id, GuardStatus(c.guard), GuardStamp(c.guard))
  }

  // What a client's next command does to each kind of key. A delete script is
  // the only command that touches several.

  function AfterEval(st: Store, c: Client): Store
    requires c.DeleteEval?
  {
    AfterDelete(st, c.id, c.sub, GuardStatus(c.guard), GuardStamp(c.guard), false)
  }

  function SubKeys(st: Store, c: Client): map<Subreddit, StreamId> {
    match c
    case CreateClaim(sub, _, id) => SetNx(st.sub, sub, id)
    case DeleteEval(_, _, _, _, _) => AfterEval(st, c).sub
    case _ => st.sub
  }

  function IdentityKeys(st: Store, c: Client, d: Draw): map<Subreddit, StreamId> {
    match c
    case CreateBackfill(sub, existing) => SetNx(st.identity, sub, existing)
    case CreateIdentity(sub, _) => SetNx(st.identity, sub, d.uuid)
    case DeleteEval(_, _, _, _, _) => AfterEval(st, c).identity
    case _ => st.identity
  }

  function MetaHashes(st: Store, c: Client, d: Draw): map<StreamId, Meta> {
    match c
    case CreateMeta(sub, inst, id) => st.meta[id := NewMeta(sub, inst, d.stamp)]
    case StartActivate(_, inst, id) => WithStatus(st, id, Active, inst, d.stamp).meta
    case StatusWrite(id, status, owner) => WithStatus(st, id, status, owner, d.stamp).meta
    case Heartbeat(id, inst) => AfterHeartbeat(st, id, inst, d.stamp).meta
    case DeleteEval(_, _, _, _, _) => AfterEval(st, c).meta
    case _ => st.meta
  }

  function CheckpointHashes(st: Store, c: Client, d: Draw): map<StreamId, Checkpoint> {
    match c
    case Worker(_, id) => AfterCheckpoint(st, id, Some(d.comment), Some(d.processedAt), d.stamp).checkpoint
    case DeleteEval(_, _, _, _, _) => AfterEval(st, c).checkpoint
    case _ => st.checkpoint
  }

  function StopKeys(st: Store, c: Client): set<StreamId> {
    match c
    case StopMark(id, _) => st.stopRequests + {id}
    case DeleteEval(_, _, _, _, _) => AfterEval(st, c).stopRequests
    case _ => st.stopRequests
  }

  function Listing(st: Store, c: Client): set<StreamId> {
    match c
    case CreateTrack(_, _, id) => st.all + {id}
    case SweepPrune(stale, _) => st.all - stale
    case DeleteEval(_, _, _, _, _) => AfterEval(st, c).all
    case _ => st.all
  }

  function InstanceIndexes(st: Store, c: Client, d: Draw): map<InstanceId, set<StreamId>> {
    match c
    case CreateIndex(_, inst, id) => Sadd(st.index, inst, id)
    case StartIndex(_, inst, id) => Sadd(st.index, inst, id)
    case StatusIndex(id, inst) => Sadd(st.index, inst, id)
    case Heartbeat(id, inst) => AfterHeartbeat(st, id, inst, d.stamp).index
    case DeleteUnindex(id, owner, _) => Srem(st.index, owner, {id})
    case _ => st.index
  }

  function LeaseKeys(st: Store, c: Client, d: Draw): Lease.Leases {
    match c
    case StartLease(sub, _, _) => Lease.Acquired(st.leases, sub, d.uuid, d.now, LEASE_TTL)
    case LeaseRefresh(sub, token) => Lease.Refreshed(st.leases, sub, token, d.now, LEASE_TTL)
    case LeaseRelease(sub, token) => Lease.Released(st.leases, sub, token, d.now)
    case _ => st.leases
  }

  /** The effect of a client's next command on the store. */
  function Effect(st: Store, c: Client, d: Draw): Store {
    Store(SubKeys(st, c), IdentityKeys(st, c, d), MetaHashes(st, c, d), CheckpointHashes(st, c, d),
          StopKeys(st, c), Listing(st, c), InstanceIndexes(st, c, d), LeaseKeys(st, c, d))
  }

  /** Where the client goes, given the answer of its command. */
  function Advance(st: Store, c: Client, d: Draw): Client {
    match c
    case CreateLook(sub, inst) => if sub in st.sub then CreateBackfill(sub, st.sub[sub]) else CreateIdentity(sub, inst)
    case CreateBackfill(sub, existing) => AlreadyExists(sub, existing)
    case CreateIdentity(sub, inst) =>
      if sub in st.identity then CreateReadIdentity(sub, inst) else CreateClaim(sub, inst, d.uuid)
    case CreateReadIdentity(sub, inst) =>
      if sub in st.identity then CreateClaim(sub, inst, st.identity[sub]) else Finished
    case CreateClaim(sub, inst, id) => if sub in st.sub then CreateLost(sub) else CreateMeta(sub, inst, id)
    case CreateLost(sub) => if sub in st.sub then AlreadyExists(sub, st.sub[sub]) else Finished
    case CreateMeta(sub, inst, id) => CreateTrack(sub, inst, id)
    case CreateTrack(sub, inst, id) =>
      if inst.Some? then CreateIndex(sub, inst.value, id) else StartLease(sub, inst, id)
    case CreateIndex(sub, inst, id) => StartLease(sub, Some(inst), id)
    case StartLease(sub, inst, id) =>
      if Lease.Holder(st.leases, sub, d.now).None? then StartActivate(sub, inst, id) else DeleteRead(id, None, [])
    case StartActivate(sub, inst, id) => if inst.Some? then StartIndex(sub, inst.value, id) else Started(sub, id)
    case StartIndex(sub, _, id) => Started(sub, id)
    case DeleteRead(id, guard, rest) =>
      if id in st.meta && st.meta[id].subreddit.Some?
      then DeleteEval(id, st.meta[id].subreddit.value, st.meta[id].instance, guard, rest)
      else SweepNext(rest)
    case DeleteEval(id, _, owner, _, rest) =>
      if EvalApplies(st, c) && owner.Some? then DeleteUnindex(id, owner.value, rest) else SweepNext(rest)
    case DeleteUnindex(_, _, rest) => SweepNext(rest)
    case SweepMembers => SweepScan(st.all)
    case SweepScan(ids) => SweepPrune(ids - st.meta.Keys, Scan(st, ids, d.order))
    case SweepPrune(_, rest) => SweepNext(rest)
    case SweepNext(rest) => NextRow(rest)
    case StatusWrite(id, _, owner) => if owner.Some? then StatusIndex(id, owner.value) else Finished
    case StopRead(id) => if id in st.meta then StopMark(id, st.meta[id].instance) else Finished
    case StopMark(id, owner) => StatusWrite(id, Stopping, owner)
    case WorkerLook(sub) => if sub in st.sub then WorkerMeta(sub, st.sub[sub]) else Finished
    case WorkerMeta(sub, id) => if id in st.meta && st.meta[id].subreddit.Some? then Worker(sub, id) else Finished
    case Worker(_, _) | Started(_, _) | AlreadyExists(_, _) => c
    case _ => Finished
  }

  /** `issued` is every uuid drawn so far, `clock` the latest stamp. */
  datatype World = World(store: Store, clients: map<ClientId, Client>, issued: set<nat>, clock: Stamp)

  datatype Event =
    | Spawn(id: ClientId, program: Client)
    | Act(id: ClientId, draw: Draw)
    | Crash(id: ClientId)

  predicate Enabled(w: World, e: Event) {
    match e
    case Spawn(id, program) => id !in w.clients && IsProgram(program)
    case Act(id, d) => id in w.clients && (NeedsUuid(w.clients[id]) ==> d.uuid !in w.issued)
    case Crash(id) => id in w.clients
  }

  /** An event that is not possible leaves the world as it is; a uuid is never drawn twice. */
  function Step(w: World, e: Event): World {
    if !Enabled(w, e) then w else
    match e
    case Spawn(id, program) => w.(clients := w.clients[id := program])
    case Crash(id) => w.(clients := w.clients[id := Finished])
    case Act(id, d) =>
      var c := w.clients[id];
      World(Effect(w.store, c, d), w.clients[id := Advance(w.store, c, d)],
            if NeedsUuid(c) then w.issued + {d.uuid} else w.issued,
            if d.stamp > w.clock then d.stamp else w.clock)
  }

  function Exec(w: World, es: seq<Event>): World {
    if es == [] then w else Step(Exec(w, es[..|es| - 1]), es[|es| - 1])
  }

  // ---------------------------------------------------------------------------
  // Stable identity
  // ---------------------------------------------------------------------------

  type Assigned = map<Subreddit, StreamId>

  /** The subreddit and stream id a client holds in its local variables, if it holds both. */
  function Pair(c: Client): Option<(Subreddit, StreamId)> {
    match c
    case CreateBackfill(sub, id) => Some((sub, id))
    case CreateClaim(sub, _, id) => Some((sub, id))
    case CreateMeta(sub, _, id) => Some((sub, id))
    case CreateTrack(sub, _, id) => Some((sub, id))
    case CreateIndex(sub, _, id) => Some((sub, id))
    case StartLease(sub, _, id) => Some((sub, id))
    case StartActivate(sub, _, id) => Some((sub, id))
    case StartIndex(sub, _, id) => Some((sub, id))
    case Started(sub, id) => Some((sub, id))
    case AlreadyExists(sub, id) => Some((sub, id))
    case DeleteEval(id, sub, _, _, _) => Some((sub, id))
    case WorkerMeta(sub, id) => Some((sub, id))
    case Worker(sub, id) => Some((sub, id))
    case _ => None
  }

  /** Somewhere in this world, subreddit `sub` goes with stream id `id`. */
  ghost predicate Sees(w: World, sub: Subreddit, id: StreamId) {
    || Lookup(w.store.sub, sub) == Some(id)
    || Lookup(w.store.identity, sub) == Some(id)
    || (id in w.store.meta && w.store.meta[id].subreddit == Some(sub))
    || exists c :: c in w.clients && Pair(w.clients[c]) == Some((sub, id))
  }

  predicate Maps(a: Assigned, sub: Subreddit, id: StreamId) { sub in a && a[sub] == id }

  ghost predicate ClientAgrees(st: Store, a: Assigned, c: Client) {
    && (Pair(c).Some? ==> Maps(a, Pair(c).value.0, Pair(c).value.1))
    && (c.CreateIdentity? && c.sub in a ==> c.sub in st.identity)
  }

  ghost predicate StoreAgrees(st: Store, a: Assigned) {
    && (forall s :: s in st.sub ==> Maps(a, s, st.sub[s]))
    && (forall s :: s in st.identity ==> Maps(a, s, st.identity[s]))
    && (forall i :: i in st.meta && st.meta[i].subreddit.Some? ==> Maps(a, st.meta[i].subreddit.value, i))
    && (forall s :: s in a ==> s in st.identity || s in st.sub)
  }

  ghost predicate OneToOne(a: Assigned, issued: set<nat>) {
    && (forall s :: s in a ==> a[s] in issued)
    && (forall s, t :: s in a && t in a && a[s] == a[t] ==> s == t)
  }

  /** The assignment of ids explains everything that is seen, and is one to one. */
  ghost predicate Agree(w: World, a: Assigned) {
    && StoreAgrees(w.store, a)
    && OneToOne(a, w.issued)
    && (forall c :: c in w.clients ==> ClientAgrees(w.store, a, w.clients[c]))
  }

  /** A creator that found neither key fixes the subreddit's id. */
  function Extended(st: Store, a: Assigned, c: Client, d: Draw): Assigned {
    if c.CreateIdentity? && c.sub !in st.identity then a[c.sub := d.uuid] else a
  }

  function NextAssigned(w: World, a: Assigned, e: Event): Assigned {
    if Enabled(w, e) && e.Act? then Extended(w.store, a, w.clients[e.id], e.draw) else a
  }

  function AssignedAfter(w: World, a: Assigned, es: seq<Event>): Assigned {
    if es == [] then a
    else NextAssigned(Exec(w, es[..|es| - 1]), AssignedAfter(w, a, es[..|es| - 1]), es[|es| - 1])
  }

  lemma MetaEffect(st: Store, c: Client, d: Draw, i: StreamId)
    requires i in MetaHashes(st, c, d) && MetaHashes(st, c, d)[i].subreddit.Some?
    ensures var sub := MetaHashes(st, c, d)[i].subreddit;
            || (i in st.meta && st.meta[i].subreddit == sub)
            || (c.CreateMeta? && c.id == i && Some(c.sub) == sub)
  {
  }

  lemma SubEffect(st: Store, c: Client, s: Subreddit)
    ensures s in SubKeys(st, c) ==>
              || Lookup(st.sub, s) == Some(SubKeys(st, c)[s])
              || (c.CreateClaim? && Pair(c) == Some((s, SubKeys(st, c)[s])))
    ensures s in st.sub && s !in SubKeys(st, c) ==> c.DeleteEval? && c.sub == s && s in AfterEval(st, c).identity
  {
  }

  lemma IdentityEffect(st: Store, c: Client, d: Draw, s: Subreddit)
    ensures s in IdentityKeys(st, c, d) ==>
              || Lookup(st.identity, s) == Some(IdentityKeys(st, c, d)[s])
              || Pair(c) == Some((s, IdentityKeys(st, c, d)[s]))
              || (c.CreateIdentity? && c.sub == s && s !in st.identity && IdentityKeys(st, c, d)[s] == d.uuid)
    ensures s in st.identity ==> s in IdentityKeys(st, c, d)
    ensures c.CreateIdentity? ==> c.sub in IdentityKeys(st, c, d)
  {
  }

  lemma KeysAgree(st: Store, a: Assigned, c: Client, d: Draw)
    requires StoreAgrees(st, a) && ClientAgrees(st, a, c)
    ensures var b := Extended(st, a, c, d);
            && (forall s :: s in SubKeys(st, c) ==> Maps(b, s, SubKeys(st, c)[s]))
            && (forall s :: s in IdentityKeys(st, c, d) ==> Maps(b, s, IdentityKeys(st, c, d)[s]))
            && (forall s :: s in b ==> s in IdentityKeys(st, c, d) || s in SubKeys(st, c))
  {
    var b := Extended(st, a, c, d);
    forall s | s in SubKeys(st, c) ensures Maps(b, s, SubKeys(st, c)[s]) {
      SubEffect(st, c, s);
    }
    forall s | s in IdentityKeys(st, c, d) ensures Maps(b, s, IdentityKeys(st, c, d)[s]) {
      IdentityEffect(st, c, d, s);
    }
    forall s | s in b ensures s in IdentityKeys(st, c, d) || s in SubKeys(st, c) {
      SubEffect(st, c, s);
      IdentityEffect(st, c, d, s);
    }
  }

  lemma MetaAgrees(st: Store, a: Assigned, c: Client, d: Draw)
    requires StoreAgrees(st, a) && ClientAgrees(st, a, c)
    ensures forall i :: i in MetaHashes(st, c, d) && MetaHashes(st, c, d)[i].subreddit.Some? ==>
              Maps(Extended(st, a, c, d), MetaHashes(st, c, d)[i].subreddit.value, i)
  {
    forall i | i in MetaHashes(st, c, d) && MetaHashes(st, c, d)[i].subreddit.Some?
      ensures Maps(Extended(st, a, c, d), MetaHashes(st, c, d)[i].subreddit.value, i)
    {
      MetaEffect(st, c, d, i);
    }
  }

  lemma EffectAgrees(st: Store, a: Assigned, c: Client, d: Draw)
    requires StoreAgrees(st, a) && ClientAgrees(st, a, c)
    ensures StoreAgrees(Effect(st, c, d), Extended(st, a, c, d))
  {
    KeysAgree(st, a, c, d);
    MetaAgrees(st, a, c, d);
  }

  lemma PairStays(st: Store, c: Client, d: Draw)
    requires Pair(c).Some? && Pair(Advance(st, c, d)).Some?
    ensures Pair(Advance(st, c, d)) == Pair(c)
  {
  }

  /** Where the pair in a client's locals can come from. */
  lemma AdvancePair(st: Store, c: Client, d: Draw)
    requires Pair(Advance(st, c, d)).Some?
    ensures var (s, i) := Pair(Advance(st, c, d)).value;
            || Pair(c) == Some((s, i))
            || Lookup(st.sub, s) == Some(i)
            || Lookup(st.identity, s) == Some(i)
            || (i in st.meta && st.meta[i].subreddit == Some(s))
            || (c.CreateIdentity? && c.sub == s && s !in st.identity && i == d.uuid)
  {
    if Pair(c).Some? { PairStays(st, c, d); }
  }

  lemma OnlyLookLeadsToIdentity(st: Store, c: Client, d: Draw)
    requires Advance(st, c, d).CreateIdentity?
    ensures c.CreateLook? && c.sub !in st.sub && Advance(st, c, d) == CreateIdentity(c.sub, c.inst)
  {
  }

  lemma AdvanceToIdentity(st: Store, c: Client, d: Draw)
    requires Advance(st, c, d).CreateIdentity?
    ensures Advance(st, c, d).sub !in st.sub && Effect(st, c, d) == st && !c.CreateIdentity?
  {
    OnlyLookLeadsToIdentity(st, c, d);
  }

  lemma AdvancePairAgrees(st: Store, a: Assigned, c: Client, d: Draw)
    requires StoreAgrees(st, a) && ClientAgrees(st, a, c) && Pair(Advance(st, c, d)).Some?
    ensures var (s, i) := Pair(Advance(st, c, d)).value; Maps(Extended(st, a, c, d), s, i)
  {
    AdvancePair(st, c, d);
  }

  /** The client that acts holds the right pair afterwards, whatever it has just read. */
  lemma AdvanceAgrees(st: Store, a: Assigned, c: Client, d: Draw)
    requires StoreAgrees(st, a) && ClientAgrees(st, a, c)
    ensures ClientAgrees(Effect(st, c, d), Extended(st, a, c, d), Advance(st, c, d))
  {
    if Pair(Advance(st, c, d)).Some? { AdvancePairAgrees(st, a, c, d); }
    if Advance(st, c, d).CreateIdentity? { AdvanceToIdentity(st, c, d); }
  }

  /** The others are not affected: identities are never removed. */
  lemma OthersAgree(st: Store, a: Assigned, c: Client, d: Draw, x: Client)
    requires ClientAgrees(st, a, c) && ClientAgrees(st, a, x)
    ensures ClientAgrees(Effect(st, c, d), Extended(st, a, c, d), x)
  {
    if x.CreateIdentity? {
      IdentityEffect(st, c, d, x.sub);
    }
  }

  lemma StepAgrees(w: World, a: Assigned, e: Event)
    requires Agree(w, a)
    ensures Agree(Step(w, e), NextAssigned(w, a, e))
    ensures forall s :: s in a ==> Maps(NextAssigned(w, a, e), s, a[s])
  {
    if Enabled(w, e) && e.Act? {
      var c := w.clients[e.id];
      EffectAgrees(w.store, a, c, e.draw);
      AdvanceAgrees(w.store, a, c, e.draw);
      forall x | x in w.clients
        ensures ClientAgrees(Effect(w.store, c, e.draw), Extended(w.store, a, c, e.draw), w.clients[x])
      {
        OthersAgree(w.store, a, c, e.draw, w.clients[x]);
      }
    }
  }

  lemma {:induction false} RunAgrees(w: World, a: Assigned, es: seq<Event>)
    requires Agree(w, a)
    ensures Agree(Exec(w, es), AssignedAfter(w, a, es))
  {
    if es != [] {
      RunAgrees(w, a, es[..|es| - 1]);
      StepAgrees(Exec(w, es[..|es| - 1]), AssignedAfter(w, a, es[..|es| - 1]), es[|es| - 1]);
    }
  }

  /** Ids are assigned for good. */
  lemma {:induction false} AssignedGrows(w: World, a: Assigned, es: seq<Event>, k: nat, s: Subreddit)
    requires Agree(w, a) && k <= |es| && s in AssignedAfter(w, a, es[..k])
    ensures Maps(AssignedAfter(w, a, es), s, AssignedAfter(w, a, es[..k])[s])
    decreases |es|
  {
    if k < |es| {
      var init := es[..|es| - 1];
      assert init[..k] == es[..k];
      AssignedGrows(w, a, init, k, s);
      RunAgrees(w, a, init);
      StepAgrees(Exec(w, init), AssignedAfter(w, a, init), es[|es| - 1]);
    } else {
      assert es[..k] == es;
    }
  }

  /** The ids of a store at rest: the lookup keys, and the identity keys of streams not running now.
      A store written before the identity keys existed has only the former. */
  function KnownIds(st: Store): Assigned { st.sub + st.identity }

  /** No client yet, both kinds of keys agree, one id per subreddit and one subreddit per id,
      every metadata hash that names a subreddit is that subreddit's, and all ids count as drawn. */
  ghost predicate Consistent(w: World) {
    w.clients == map[] && StoreAgrees(w.store, KnownIds(w.store)) && OneToOne(KnownIds(w.store), w.issued)
  }

  lemma SeenIsAssigned(w: World, a: Assigned, sub: Subreddit, id: StreamId)
    requires Agree(w, a) && Sees(w, sub, id)
    ensures Maps(a, sub, id)
  {
    if c :| c in w.clients && Pair(w.clients[c]) == Some((sub, id)) {
      assert ClientAgrees(w.store, a, w.clients[c]);
    }
  }

  /** Over every interleaving from a consistent store: whatever id goes with subreddit s in any key or
      local variable at one moment and with t at any other moment, the ids are equal exactly if the
      subreddits are. */
  lemma StableIdentity(
    w: World, es: seq<Event>, k: nat, n: nat, s: Subreddit, i: StreamId, t: Subreddit, j: StreamId)
    requires Consistent(w) && k <= n <= |es|
    requires Sees(Exec(w, es[..k]), s, i) && Sees(Exec(w, es[..n]), t, j)
    ensures s == t <==> i == j
  {
    var a := KnownIds(w.store);
    RunAgrees(w, a, es[..k]);
    RunAgrees(w, a, es[..n]);
    SeenIsAssigned(Exec(w, es[..k]), AssignedAfter(w, a, es[..k]), s, i);
    SeenIsAssigned(Exec(w, es[..n]), AssignedAfter(w, a, es[..n]), t, j);
    assert es[..n][..k] == es[..k];
    AssignedGrows(w, a, es[..n], k, s);
  }

  // ---------------------------------------------------------------------------
  // Resume across restarts
  // ---------------------------------------------------------------------------

  function WrittenBy(d: Draw): Checkpoint {
    Checkpoint(Some(d.comment), Some(d.processedAt), Some(d.stamp))
  }

  predicate Writes(w: World, e: Event) {
    Enabled(w, e) && e.Act? && w.clients[e.id].Worker?
  }

  function WriteFor(w: World, e: Event, s: Subreddit): seq<Checkpoint> {
    if Writes(w, e) && w.clients[e.id].sub == s then [WrittenBy(e.draw)] else []
  }

  /** The checkpoints written by the workers of a subreddit, of whatever incarnation, in order. */
  function Written(w: World, es: seq<Event>, s: Subreddit): seq<Checkpoint> {
    if es == [] then [] else
    Written(w, es[..|es| - 1], s) + WriteFor(Exec(w, es[..|es| - 1]), es[|es| - 1], s)
  }

  function LastOr(cs: seq<Checkpoint>, default: Checkpoint): Checkpoint {
    if cs == [] then default else cs[|cs| - 1]
  }

  ghost predicate IdInUse(a: Assigned, i: StreamId) {
    exists s :: Maps(a, s, i)
  }

  /** Where the checkpoints have got to after `written` writes for subreddit s: the last of them stands
      under the id of s, there is none before s has an id, and an id not in use is as it was. */
  ghost predicate Stands(start: Store, w: World, a: Assigned, s: Subreddit, i: StreamId, written: seq<Checkpoint>) {
    && (s in a ==> ReadCheckpoint(w.store, a[s]) == LastOr(written, ReadCheckpoint(start, a[s])))
    && (s !in a ==> written == [])
    && (IdInUse(a, i) || ReadCheckpoint(w.store, i) == ReadCheckpoint(start, i))
  }

  lemma CheckpointEffect(st: Store, c: Client, d: Draw, i: StreamId)
    ensures ReadCheckpoint(Effect(st, c, d), i) ==
            if c.Worker? && c.id == i then WrittenBy(d) else ReadCheckpoint(st, i)
  {
  }

  lemma StepCheckpoints(w: World, e: Event, i: StreamId)
    ensures ReadCheckpoint(Step(w, e).store, i) ==
            if Writes(w, e) && w.clients[e.id].id == i then WrittenBy(e.draw) else ReadCheckpoint(w.store, i)
  {
    if Enabled(w, e) && e.Act? {
      CheckpointEffect(w.store, w.clients[e.id], e.draw, i);
    }
  }

  /** A write lands under the id of the writer's subreddit. */
  lemma WriterHoldsItsId(w: World, a: Assigned, e: Event)
    requires Agree(w, a) && Writes(w, e)
    ensures Maps(a, w.clients[e.id].sub, w.clients[e.id].id)
  {
    assert ClientAgrees(w.store, a, w.clients[e.id]);
  }

  lemma UnusedStays(w: World, a: Assigned, e: Event, i: StreamId)
    requires Agree(w, a) && !IdInUse(NextAssigned(w, a, e), i)
    ensures !IdInUse(a, i)
    ensures Writes(w, e) ==> w.clients[e.id].id != i
  {
    StepAgrees(w, a, e);
    if Writes(w, e) { WriterHoldsItsId(w, a, e); }
    forall s ensures !Maps(a, s, i) {
      assert !Maps(NextAssigned(w, a, e), s, i);
    }
  }

  lemma NewIdWasUnused(w: World, a: Assigned, e: Event, s: Subreddit)
    requires Agree(w, a) && s in NextAssigned(w, a, e) && s !in a
    ensures !IdInUse(a, NextAssigned(w, a, e)[s]) && !Writes(w, e)
  {
  }

  lemma StepStands(start: Store, w: World, a: Assigned, e: Event, s: Subreddit, i: StreamId, written: seq<Checkpoint>)
    requires Agree(w, a) && Stands(start, w, a, s, i, written)
    requires s !in a && s in NextAssigned(w, a, e) ==> Stands(start, w, a, s, NextAssigned(w, a, e)[s], written)
    ensures Stands(start, Step(w, e), NextAssigned(w, a, e), s, i, written + WriteFor(w, e, s))
  {
    var b := NextAssigned(w, a, e);
    StepAgrees(w, a, e);
    if Writes(w, e) { WriterHoldsItsId(w, a, e); }
    StepCheckpoints(w, e, i);
    if !IdInUse(b, i) { UnusedStays(w, a, e, i); }
    if s in b {
      StepCheckpoints(w, e, b[s]);
      if s !in a { NewIdWasUnused(w, a, e, s); }
    }
  }

  lemma {:induction false} RunStands(w: World, a: Assigned, es: seq<Event>, s: Subreddit, i: StreamId)
    requires Agree(w, a)
    ensures Stands(w.store, Exec(w, es), AssignedAfter(w, a, es), s, i, Written(w, es, s))
    decreases |es|
  {
    if es != [] {
      var init, e := es[..|es| - 1], es[|es| - 1];
      var v, b := Exec(w, init), AssignedAfter(w, a, init);
      RunAgrees(w, a, init);
      RunStands(w, a, init, s, i);
      var c := NextAssigned(v, b, e);
      if s !in b && s in c { RunStands(w, a, init, s, c[s]); }
      StepStands(w.store, v, b, e, s, i, Written(w, init, s));
    }
  }

  /** What the next incarnation reads: in every run, the checkpoint under a worker's id is exactly the
      last one that any worker of its subreddit wrote, in this or an earlier incarnation, and the one
      the store began with if none did. */
  lemma ResumeAcrossRestarts(w: World, es: seq<Event>, c: ClientId, sub: Subreddit, id: StreamId)
    requires Consistent(w)
    requires c in Exec(w, es).clients && Exec(w, es).clients[c] == Worker(sub, id)
    ensures ReadCheckpoint(Exec(w, es).store, id) == LastOr(Written(w, es, sub), ReadCheckpoint(w.store, id))
  {
    RunAgrees(w, KnownIds(w.store), es);
    RunStands(w, KnownIds(w.store), es, sub, id);
    assert Sees(Exec(w, es), sub, id);
    SeenIsAssigned(Exec(w, es), AssignedAfter(w, KnownIds(w.store), es), sub, id);
  }

  // ---------------------------------------------------------------------------
  // Cleanup is a compare-and-delete
  // ---------------------------------------------------------------------------

  /** The client still has this scanned row to act on. */
  ghost predicate Carries(c: Client, row: Row) {
    match c
    case DeleteRead(id, guard, rest) => row in rest || (guard == Some(row.meta) && id == row.id)
    case DeleteEval(id, _, _, guard, rest) => row in rest || (guard == Some(row.meta) && id == row.id)
    case DeleteUnindex(_, _, rest) => row in rest
    case SweepPrune(_, rest) => row in rest
    case SweepNext(rest) => row in rest
    case _ => false
  }

  predicate HasMeta(w: World, row: Row) {
    row.id in w.store.meta && w.store.meta[row.id] == row.meta
  }

  lemma {:induction false} ScanRows(st: Store, ids: set<StreamId>, order: seq<StreamId>, row: Row)
    requires row in Scan(st, ids, order)
    ensures row.id in st.meta && st.meta[row.id] == row.meta
  {
    if order != [] && row in Scan(st, ids, order[..|order| - 1]) {
      ScanRows(st, ids, order[..|order| - 1], row);
    }
  }

  lemma AdvanceCarries(st: Store, c: Client, d: Draw, row: Row)
    requires Carries(Advance(st, c, d), row)
    ensures Carries(c, row) || (c.SweepScan? && row.id in st.meta && st.meta[row.id] == row.meta)
  {
    if c.SweepScan? {
      ScanRows(st, c.ids, d.order, row);
    }
  }

  /** A row in a sweep's hands comes from that sweep's own scan. */
  lemma {:induction false} RowWasScanned(w: World, es: seq<Event>, c: ClientId, row: Row) returns (p: nat)
    requires w.clients == map[]
    requires c in Exec(w, es).clients && Carries(Exec(w, es).clients[c], row)
    ensures p < |es| && es[p].Act? && es[p].id == c
    ensures c in Exec(w, es[..p]).clients && Exec(w, es[..p]).clients[c].SweepScan?
    ensures HasMeta(Exec(w, es[..p]), row) && HasMeta(Exec(w, es[..p + 1]), row)
  {
    var init, e := es[..|es| - 1], es[|es| - 1];
    var before := Exec(w, init);
    if c in before.clients && Carries(before.clients[c], row) {
      p := RowWasScanned(w, init, c, row);
      assert init[..p] == es[..p] && init[..p + 1] == es[..p + 1];
    } else {
      AdvanceCarries(before.store, before.clients[c], e.draw, row);
      p := |init|;
      assert es[..p + 1] == es;
    }
  }

  /** Stamps drawn in the run are later than everything before them. */
  ghost predicate Increasing(w: World, es: seq<Event>) {
    forall i :: 0 <= i < |es| && es[i].Act? ==> es[i].draw.stamp > Exec(w, es[..i]).clock
  }

  ghost predicate StampsBelowClock(w: World) {
    forall i :: i in w.store.meta ==> w.store.meta[i].updatedAt <= w.clock
  }

  /** Every write to a metadata hash stamps it. */
  lemma MetaWritesStamp(st: Store, c: Client, d: Draw, i: StreamId)
    requires i in Effect(st, c, d).meta
    ensures var m := Effect(st, c, d).meta[i];
            (i in st.meta && m == st.meta[i]) || m.updatedAt == d.stamp
  {
  }

  lemma {:induction false} StampsStayBelow(w: World, es: seq<Event>)
    requires StampsBelowClock(w)
    ensures StampsBelowClock(Exec(w, es)) && w.clock <= Exec(w, es).clock
  {
    if es != [] {
      StampsStayBelow(w, es[..|es| - 1]);
      var v, e := Exec(w, es[..|es| - 1]), es[|es| - 1];
      if Enabled(v, e) && e.Act? {
        forall i | i in Exec(w, es).store.meta ensures Exec(w, es).store.meta[i].updatedAt <= Exec(w, es).clock {
          MetaWritesStamp(v.store, v.clients[e.id], e.draw, i);
        }
      }
    }
  }

  /** Gone, or stamped since the clock stood at t. */
  predicate Touched(w: World, id: StreamId, t: Stamp) {
    id in w.store.meta ==> w.store.meta[id].updatedAt > t
  }

  /** With increasing stamps, metadata that was touched since a scan never looks like the scanned row again. */
  lemma {:induction false} TouchedStaysTouched(w: World, es: seq<Event>, row: Row, k: nat)
    requires StampsBelowClock(w) && HasMeta(w, row) && Increasing(w, es)
    requires k <= |es| && !HasMeta(Exec(w, es[..k]), row)
    ensures Touched(Exec(w, es), row.id, w.clock)
    decreases |es|
  {
    var init, e := es[..|es| - 1], es[|es| - 1];
    assert es[..0] == [];
    assert k > 0;
    forall i | 0 <= i < |init| && init[i].Act? ensures init[i].draw.stamp > Exec(w, init[..i]).clock {
      assert init[..i] == es[..i];
    }
    var v := Exec(w, init);
    assert es[..|es| - 1] == init;
    assert k == |es| ==> es[..k] == es;
    assert k < |es| ==> init[..k] == es[..k];
    StampsStayBelow(w, init);
    if k < |es| {
      TouchedStaysTouched(w, init, row, k);
    } else if !HasMeta(v, row) {
      assert init[..|init|] == init;
      TouchedStaysTouched(w, init, row, |init|);
    }
    if Enabled(v, e) && e.Act? && row.id in Exec(w, es).store.meta {
      MetaWritesStamp(v.store, v.clients[e.id], e.draw, row.id);
    }
  }

  /** The delete of a sweep takes effect only if the metadata has been exactly the scanned row ever
      since the sweep's scan, so that no create, status write or heartbeat came between. */
  lemma CleanupIsCompareAndDelete(w: World, es: seq<Event>, c: ClientId) returns (p: nat)
    requires w.clients == map[] && StampsBelowClock(w) && Increasing(w, es)
    requires c in Exec(w, es).clients
    requires var x := Exec(w, es).clients[c]; x.DeleteEval? && x.guard.Some? && EvalApplies(Exec(w, es).store, x)
    ensures p < |es| && es[p].Act? && es[p].id == c
    ensures c in Exec(w, es[..p]).clients && Exec(w, es[..p]).clients[c].SweepScan?
    ensures var x := Exec(w, es).clients[c];
            forall k :: p <= k <= |es| ==> HasMeta(Exec(w, es[..k]), Row(x.id, x.guard.value))
  {
    var x := Exec(w, es).clients[c];
    var row := Row(x.id, x.guard.value);
    p := RowWasScanned(w, es, c, row);
    var v, rest := Exec(w, es[..p]), es[p..];
    StampsStayBelow(w, es[..p]);
    IncreasingFrom(w, es, p);
    ExecFrom(w, es, p, |es|);
    assert rest[..|es| - p] == rest && es[..|es|] == es;
    forall k | p <= k <= |es| ensures HasMeta(Exec(w, es[..k]), row) {
      if !HasMeta(Exec(w, es[..k]), row) {
        ExecFrom(w, es, p, k);
        TouchedStaysTouched(v, rest, row, k - p);
      }
    }
  }

  /** The run from its p-th state on. */
  lemma ExecFrom(w: World, es: seq<Event>, p: nat, k: nat)
    requires p <= k <= |es|
    ensures Exec(Exec(w, es[..p]), es[p..][..k - p]) == Exec(w, es[..k])
  {
    assert es[p..][..k - p] == es[p..k];
    assert es[..p] + es[p..k] == es[..k];
    ExecSplit(w, es[..p], es[p..k]);
  }

  lemma IncreasingFrom(w: World, es: seq<Event>, p: nat)
    requires p <= |es| && Increasing(w, es)
    ensures Increasing(Exec(w, es[..p]), es[p..])
  {
    forall i | 0 <= i < |es[p..]| && es[p..][i].Act?
      ensures es[p..][i].draw.stamp > Exec(Exec(w, es[..p]), es[p..][..i]).clock
    {
      ExecFrom(w, es, p, p + i);
      assert es[p..][i] == es[p + i];
    }
  }

  lemma {:induction false} ExecSplit(w: World, a: seq<Event>, b: seq<Event>)
    ensures Exec(w, a + b) == Exec(Exec(w, a), b)
  {
    if b == [] {
      assert a + b == a;
    } else {
      assert (a + b)[..|a + b| - 1] == a + b[..|b| - 1];
      ExecSplit(w, a, b[..|b| - 1]);
    }
  }

  predicate Terminal(status: Status) { status != Starting && status != Active && status != Stopping }

  ghost predicate GuardIsTerminal(c: Client) {
    match c
    case DeleteRead(_, guard, _) => guard.Some? ==> Terminal(guard.value.status)
    case DeleteEval(_, _, _, guard, _) => guard.Some? ==> Terminal(guard.value.status)
    case _ => true
  }

  lemma AdvanceGuard(st: Store, c: Client, d: Draw)
    requires GuardIsTerminal(c)
    ensures GuardIsTerminal(Advance(st, c, d))
  {
  }

  lemma {:induction false} SweepsTargetDeadRows(w: World, es: seq<Event>, c: ClientId)
    requires w.clients == map[] && c in Exec(w, es).clients
    ensures GuardIsTerminal(Exec(w, es).clients[c])
  {
    if es != [] {
      var before := Exec(w, es[..|es| - 1]);
      if c in before.clients {
        SweepsTargetDeadRows(w, es[..|es| - 1], c);
        var e := es[|es| - 1];
        if Enabled(before, e) && e.Act? && e.id == c { AdvanceGuard(before.store, before.clients[c], e.draw); }
      }
    }
  }

  /** Whatever the stamps: a sweep's delete removes nothing but a stream whose status is terminal at
      that very moment, and it changes no lease and no checkpoint. */
  lemma CleanupSparesTheLiving(w: World, es: seq<Event>, c: ClientId, d: Draw)
    requires w.clients == map[] && c in Exec(w, es).clients
    requires var x := Exec(w, es).clients[c]; x.DeleteEval? && x.guard.Some?
    ensures var x, st, after := Exec(w, es).clients[c], Exec(w, es).store, Exec(w, es + [Act(c, d)]).store;
            && after.leases == st.leases && after.checkpoint == st.checkpoint
            && (after == st
                || (x.id in st.meta && st.meta[x.id].status !in {Starting, Active, Stopping} && x.id !in after.meta))
            && (forall i :: i in st.meta && i != x.id ==> i in after.meta && after.meta[i] == st.meta[i])
            && (forall s :: s in st.sub && st.sub[s] != x.id ==> s in after.sub && after.sub[s] == st.sub[s])
  {
    SweepsTargetDeadRows(w, es, c);
    assert (es + [Act(c, d)])[..|es|] == es;
  }

  // ---------------------------------------------------------------------------
  // Only the holder of the lease goes on
  // ---------------------------------------------------------------------------

  /** start_stream past its lease: it goes on to activate, or has done so. */
  predicate PastLease(c: Client, sub: Subreddit) {
    match c
    case StartActivate(s, _, _) => s == sub
    case StartIndex(s, _, _) => s == sub
    case Started(s, _) => s == sub
    case _ => false
  }

  /** The key is absent or expired, and then it holds the drawn token for 60 s. */
  ghost predicate Takes(before: Store, after: Store, sub: Subreddit, d: Draw) {
    && (sub in before.leases ==> before.leases[sub].expiry <= d.now)
    && sub in after.leases && after.leases[sub] == Lease.Lease(d.uuid, d.now + 60.0)
  }

  lemma AdvancePastLease(st: Store, c: Client, d: Draw, sub: Subreddit)
    requires PastLease(Advance(st, c, d), sub)
    ensures PastLease(c, sub) || (c.StartLease? && c.sub == sub && Takes(st, Effect(st, c, d), sub, d))
  {
  }

  /** In every run, a client that activates a stream or has started it drew, at an earlier step of its own, a token that
      nobody had drawn before and that was stored as its subreddit's lease at that moment. */
  lemma {:induction false} StartedTookTheLease(w: World, es: seq<Event>, c: ClientId, sub: Subreddit) returns (k: nat)
    requires w.clients == map[]
    requires c in Exec(w, es).clients && PastLease(Exec(w, es).clients[c], sub)
    ensures k < |es| && es[k].Act? && es[k].id == c
    ensures c in Exec(w, es[..k]).clients && Exec(w, es[..k]).clients[c].StartLease?
    ensures es[k].draw.uuid !in Exec(w, es[..k]).issued
    ensures Takes(Exec(w, es[..k]).store, Exec(w, es[..k + 1]).store, sub, es[k].draw)
  {
    var init, e := es[..|es| - 1], es[|es| - 1];
    var before := Exec(w, init);
    if c in before.clients && PastLease(before.clients[c], sub) {
      k := StartedTookTheLease(w, init, c, sub);
      assert init[..k] == es[..k] && init[..k + 1] == es[..k + 1];
    } else {
      k := |init|;
      assert es[..k + 1] == es;
      AdvancePastLease(before.store, before.clients[c], e.draw, sub);
    }
  }
}
