/** The Redis key space of repositories/stream_registry.py and its atomic commands.

    Stream ids are uuids and instance ids are never empty, so an empty or missing
    instance field is None. Every command that writes a metadata hash writes `status` and
    `updated_at`; a hash written by a status update after a deletion has no subreddit.
  */
module Store {
  import opened Common
  import Lease

  type Subreddit = Lease.Subreddit
  type StreamId = nat
  type InstanceId = nat
  type Stamp = nat

  datatype Status = Starting | Active | Stopping | Stopped | Errored | Inactive

  /** _is_dead_stream of tasks/dead_stream_cleanup.py */
  predicate IsDead(status: Status) { status == Stopped || status == Errored || status == Inactive }

  datatype Meta = Meta(subreddit: Option<Subreddit>, status: Status, instance: Option<InstanceId>, updatedAt: Stamp)

  datatype Checkpoint = Checkpoint(
    lastCommentId: Option<string>, lastProcessedAt: Option<string>, updatedAt: Option<Stamp>)

  /** One row of list_streams. */
  datatype Row = Row(id: StreamId, meta: Meta)

  const NO_CHECKPOINT := Checkpoint(None, None, None)

  datatype Store = Store(
    sub: map<Subreddit, StreamId>,          // stream:subreddit:{subreddit}
    identity: map<Subreddit, StreamId>,     // stream:identity:{subreddit}
    meta: map<StreamId, Meta>,              // stream:meta:{id}
    checkpoint: map<StreamId, Checkpoint>,  // stream:checkpoint:{id}
    stopRequests: set<StreamId>,            // stream:stop-request:{id}
    all: set<StreamId>,                     // streams:all
    index: map<InstanceId, set<StreamId>>,  // streams:instance:{instance}
    leases: Lease.Leases)                   // stream:lock:{subreddit}

  function Lookup<K, V>(m: map<K, V>, k: K): Option<V> {
    if k in m then Some(m[k]) else None
  }

  function SetNx<K, V>(m: map<K, V>, k: K, v: V): map<K, V> {
    if k in m then m else m[k := v]
  }

  function Members(index: map<InstanceId, set<StreamId>>, inst: InstanceId): set<StreamId> {
    if inst in index then index[inst] else {}
  }

  function Sadd(index: map<InstanceId, set<StreamId>>, inst: InstanceId, id: StreamId): map<InstanceId, set<StreamId>> {
    index[inst := Members(index, inst) + {id}]
  }

  function Srem(
    index: map<InstanceId, set<StreamId>>, inst: InstanceId, ids: set<StreamId>): map<InstanceId, set<StreamId>>
  {
    index[inst := Members(index, inst) - ids]
  }

  /** HSET of create_stream: every field. */
  function NewMeta(sub: Subreddit, inst: Option<InstanceId>, stamp: Stamp): Meta {
    Meta(Some(sub), Starting, inst, stamp)
  }

  /** HSET of update_status: some fields, whatever was there before. */
  function StatusMeta(before: Option<Meta>, status: Status, inst: Option<InstanceId>, stamp: Stamp): Meta {
    match before
    case None => Meta(None, status, inst, stamp)
    case Some(m) => Meta(m.subreddit, status, if inst.Some? then inst else m.instance, stamp)
  }

  function WithStatus(st: Store, id: StreamId, status: Status, inst: Option<InstanceId>, stamp: Stamp): Store {
    st.(meta := st.meta[id := StatusMeta(Lookup(st.meta, id), status, inst, stamp)])
  }

  /** The guards of the delete script. */
  predicate DeleteApplies(st: Store, id: StreamId, status: Option<Status>, stamp: Option<Stamp>) {
    && id in st.meta
    && (status.Some? ==> st.meta[id].status == status.value)
    && (stamp.Some? ==> st.meta[id].updatedAt == stamp.value)
  }

  /** Its effect once the guards hold: the lookup key goes only if it is this stream's, the
      identity is written back, and the checkpoint stays unless it is purged. */
  function Deleted(st: Store, id: StreamId, sub: Subreddit, purge: bool): Store {
    st.(sub := if Lookup(st.sub, sub) == Some(id) then st.sub - {sub} else st.sub,
        identity := if purge then st.identity - {sub} else st.identity[sub := id],
        meta := st.meta - {id},
        stopRequests := st.stopRequests - {id},
        all := st.all - {id},
        checkpoint := if purge then st.checkpoint - {id} else st.checkpoint)
  }

  function AfterDelete(
    st: Store, id: StreamId, sub: Subreddit, status: Option<Status>, stamp: Option<Stamp>, purge: bool): Store
  {
    if DeleteApplies(st, id, status, stamp) then Deleted(st, id, sub, purge) else st
  }

  lemma PurgedIdentity(identity: map<Subreddit, StreamId>, sub: Subreddit, id: StreamId)
    ensures identity[sub := id] - {sub} == identity - {sub}
  {
  }

  /** The delete script key by key: when it applies, what goes, and what it leaves as it was. */
  lemma DeleteKeys(st: Store, id: StreamId, sub: Subreddit, status: Option<Status>, stamp: Option<Stamp>, purge: bool)
    ensures var after := AfterDelete(st, id, sub, status, stamp, purge);
            if id !in st.meta
               || (status.Some? && st.meta[id].status != status.value)
               || (stamp.Some? && st.meta[id].updatedAt != stamp.value)
            then after == st
            else
              && after.meta == st.meta - {id} && id !in after.stopRequests && id !in after.all
              && (sub in after.sub <==> sub in st.sub && st.sub[sub] != id)
              && (forall s :: s in after.sub ==> s in st.sub && after.sub[s] == st.sub[s])
              && (forall s :: s in st.sub && s != sub ==> s in after.sub)
              && (sub in after.identity <==> !purge) && (!purge ==> after.identity[sub] == id)
              && (id in after.checkpoint <==> id in st.checkpoint && !purge)
              && after.identity - {sub} == st.identity - {sub}
              && after.checkpoint - {id} == st.checkpoint - {id}
              && after.stopRequests + {id} == st.stopRequests + {id} && after.all + {id} == st.all + {id}
              && after.leases == st.leases && after.index == st.index
  {
    PurgedIdentity(st.identity, sub, id);
  }

  predicate HeartbeatApplies(st: Store, id: StreamId, inst: InstanceId) {
    id in st.meta && st.meta[id].instance == Some(inst) && st.meta[id].status == Active
  }

  function AfterHeartbeat(st: Store, id: StreamId, inst: InstanceId, stamp: Stamp): Store {
    if HeartbeatApplies(st, id, inst)
    then st.(meta := st.meta[id := st.meta[id].(updatedAt := stamp)], index := Sadd(st.index, inst, id))
    else st
  }

  /** get_checkpoint */
  function ReadCheckpoint(st: Store, id: StreamId): Checkpoint {
    if id in st.checkpoint then st.checkpoint[id] else NO_CHECKPOINT
  }

  function Or<T>(a: Option<T>, b: Option<T>): Option<T> {
    if a.Some? then a else b
  }

  /** set_checkpoint: HSET of the given fields and the stamp, and nothing at all without fields. */
  function AfterCheckpoint(
    st: Store, id: StreamId, comment: Option<string>, processedAt: Option<string>, stamp: Stamp): Store
  {
    if comment.None? && processedAt.None? then st else
    var before := ReadCheckpoint(st, id);
    st.(checkpoint := st.checkpoint[id :=
      Checkpoint(Or(comment, before.lastCommentId), Or(processedAt, before.lastProcessedAt), Some(stamp))])
  }

  // ---------------------------------------------------------------------------
  // The commands, on mutable keys
  // ---------------------------------------------------------------------------

  class Redis {
    var sub: map<Subreddit, StreamId>
    var identity: map<Subreddit, StreamId>
    var meta: map<StreamId, Meta>
    var checkpoint: map<StreamId, Checkpoint>
    var stopRequests: set<StreamId>
    var all: set<StreamId>
    var index: map<InstanceId, set<StreamId>>
    const leases: Lease.Leases

    ghost function View(): Store
      reads this
    {
      Store(sub, identity, meta, checkpoint, stopRequests, all, index, leases)
    }

    constructor (st: Store)
      ensures View() == st
    {
      sub, identity, meta, checkpoint := st.sub, st.identity, st.meta, st.checkpoint;
      stopRequests, all, index, leases := st.stopRequests, st.all, st.index, st.leases;
    }

    /** The script of delete_stream, line by line. */
    method EvalDelete(
      id: StreamId, subreddit: Subreddit, status: Option<Status>, stamp: Option<Stamp>, purge: bool)
      returns (deleted: bool)
      modifies this
      ensures deleted <==> DeleteApplies(old(View()), id, status, stamp)
      ensures View() == AfterDelete(old(View()), id, subreddit, status, stamp, purge)
    {
      PurgedIdentity(identity, subreddit, id);
      if id !in meta { return false; }
      if status.Some? && meta[id].status != status.value { return false; }
      if stamp.Some? && meta[id].updatedAt != stamp.value { return false; }
      if subreddit in sub && sub[subreddit] == id {
        sub := sub - {subreddit};
      }
      identity := identity[subreddit := id];
      meta := meta - {id};
      stopRequests := stopRequests - {id};
      all := all - {id};
      if purge {
        checkpoint := checkpoint - {id};
        identity := identity - {subreddit};
      }
      return true;
    }

    /** The script of heartbeat. */
    method EvalHeartbeat(id: StreamId, inst: InstanceId, stamp: Stamp) returns (refreshed: bool)
      modifies this
      ensures View() == AfterHeartbeat(old(View()), id, inst, stamp)
      ensures refreshed <==> id in old(meta) && old(meta)[id].instance == Some(inst) && old(meta)[id].status == Active
      ensures refreshed ==>
                meta == old(meta)[id := old(meta)[id].(updatedAt := stamp)] && inst in index && id in index[inst]
      ensures !refreshed ==> View() == old(View())
    {
      if id !in meta || meta[id].instance != Some(inst) { return false; }
      if meta[id].status != Active { return false; }
      meta := meta[id := meta[id].(updatedAt := stamp)];
      index := Sadd(index, inst, id);
      return true;
    }
  }

  // ---------------------------------------------------------------------------
  // The registry, one caller at a time
  // ---------------------------------------------------------------------------

  datatype CreateResult = Created(id: StreamId, meta: Meta) | Exists(id: StreamId)

  /** The id a lone create ends up with. */
  function ResolvedId(st: Store, sub: Subreddit, candidate: StreamId): StreamId {
    if sub in st.sub then st.sub[sub] else if sub in st.identity then st.identity[sub] else candidate
  }

  function AfterCreate(st: Store, sub: Subreddit, inst: Option<InstanceId>, candidate: StreamId, stamp: Stamp): Store {
    var id := ResolvedId(st, sub, candidate);
    var st := st.(identity := SetNx(st.identity, sub, id));
    if sub in st.sub then st else
    st.(sub := st.sub[sub := id],
        meta := st.meta[id := NewMeta(sub, inst, stamp)],
        all := st.all + {id},
        index := if inst.Some? then Sadd(st.index, inst.value, id) else st.index)
  }

  /** delete_stream: read the hash, run the script for its subreddit, and prune the index of its instance. */
  function AfterDeleteStream(
    st: Store, id: StreamId, status: Option<Status>, stamp: Option<Stamp>, purge: bool): Store
  {
    if !DeleteApplies(st, id, status, stamp) || st.meta[id].subreddit.None? then st else
    var m := st.meta[id];
    var gone := Deleted(st, id, m.subreddit.value, purge);
    if m.instance.Some? then gone.(index := Srem(st.index, m.instance.value, {id})) else gone
  }

  function AfterUpdateStatus(
    st: Store, id: StreamId, status: Status, inst: Option<InstanceId>, stamp: Stamp): Store
  {
    var written := WithStatus(st, id, status, inst, stamp);
    if inst.Some? then written.(index := Sadd(st.index, inst.value, id)) else written
  }

  /** request_stop of an existing stream: the request and the status, under the instance it had. */
  function StopRequested(st: Store, id: StreamId, stamp: Stamp): Store
    requires id in st.meta
  {
    var m := st.meta[id];
    st.(stopRequests := st.stopRequests + {id},
        meta := st.meta[id := m.(status := Stopping, updatedAt := stamp)],
        index := if m.instance.Some? then Sadd(st.index, m.instance.value, id) else st.index)
  }

  class StreamRegistry {
    const redis: Redis

    constructor (redis: Redis)
      ensures this.redis == redis
    {
      this.redis := redis;
    }

    method CreateStream(sub: Subreddit, inst: Option<InstanceId>, candidate: StreamId, stamp: Stamp)
      returns (r: CreateResult)
      modifies redis
      ensures redis.View() == AfterCreate(old(redis.View()), sub, inst, candidate, stamp)
      ensures r.Exists? <==> sub in old(redis.sub)
      ensures r.id == if sub in old(redis.sub) then old(redis.sub)[sub]
                      else if sub in old(redis.identity) then old(redis.identity)[sub]
                      else candidate
      ensures r.Created? ==>
                && r.meta == Meta(Some(sub), Starting, inst, stamp)
                && redis.meta == old(redis.meta)[r.id := r.meta]
      ensures r.Exists? ==> redis.meta == old(redis.meta) && redis.sub == old(redis.sub) && redis.all == old(redis.all)
      ensures redis.sub[sub] == r.id && sub in redis.identity
    {
      if sub in redis.sub {
        var existing := redis.sub[sub];
        redis.identity := SetNx(redis.identity, sub, existing);
        return Exists(existing);
      }
      var id := candidate;
      if sub in redis.identity {
        id := redis.identity[sub];
      } else {
        redis.identity := redis.identity[sub := candidate];
      }
      redis.sub := redis.sub[sub := id];
      var meta := NewMeta(sub, inst, stamp);
      redis.meta := redis.meta[id := meta];
      redis.all := redis.all + {id};
      if inst.Some? {
        redis.index := Sadd(redis.index, inst.value, id);
      }
      return Created(id, meta);
    }

    method DeleteStream(id: StreamId, status: Option<Status>, stamp: Option<Stamp>, purge: bool)
      returns (deleted: bool)
      modifies redis
      ensures deleted <==> DeleteApplies(old(redis.View()), id, status, stamp) && old(redis.meta)[id].subreddit.Some?
      ensures !deleted ==> redis.View() == old(redis.View())
      ensures redis.View() == AfterDeleteStream(old(redis.View()), id, status, stamp, purge)
    {
      if id !in redis.meta { return false; }
      var m := redis.meta[id];
      if m.subreddit.None? { return false; }
      deleted := redis.EvalDelete(id, m.subreddit.value, status, stamp, purge);
      if deleted && m.instance.Some? {
        redis.index := Srem(redis.index, m.instance.value, {id});
      }
    }

    method UpdateStatus(id: StreamId, status: Status, inst: Option<InstanceId>, stamp: Stamp)
      modifies redis
      ensures redis.View() == AfterUpdateStatus(old(redis.View()), id, status, inst, stamp)
      ensures id in redis.meta && redis.meta[id].status == status && redis.meta[id].updatedAt == stamp
      ensures inst.Some? ==> redis.meta[id].instance == inst
      ensures inst.None? ==> redis.index == old(redis.index)
      ensures id in old(redis.meta) ==>
                && redis.meta[id].subreddit == old(redis.meta)[id].subreddit
                && (inst.None? ==> redis.meta[id].instance == old(redis.meta)[id].instance)
      ensures id !in old(redis.meta) ==> redis.meta[id].subreddit.None? && redis.meta[id].instance == inst
    {
      redis.meta := redis.meta[id := StatusMeta(Lookup(redis.meta, id), status, inst, stamp)];
      if inst.Some? {
        redis.index := Sadd(redis.index, inst.value, id);
      }
    }

    /** False is StreamNotFoundError. */
    method RequestStop(id: StreamId, stamp: Stamp) returns (found: bool)
      modifies redis
      ensures found <==> id in old(redis.meta)
      ensures !found ==> redis.View() == old(redis.View())
      ensures found ==> redis.View() == StopRequested(old(redis.View()), id, stamp)
      ensures found ==> id in redis.stopRequests
                        && redis.meta[id] == old(redis.meta)[id].(status := Stopping, updatedAt := stamp)
    {
      if id !in redis.meta { return false; }
      var inst := redis.meta[id].instance;
      redis.stopRequests := redis.stopRequests + {id};
      UpdateStatus(id, Stopping, inst, stamp);
      return true;
    }

    method SetCheckpoint(id: StreamId, comment: Option<string>, processedAt: Option<string>, stamp: Stamp)
      modifies redis
      ensures redis.View() == AfterCheckpoint(old(redis.View()), id, comment, processedAt, stamp)
    {
      if comment.None? && processedAt.None? { return; }
      var c := if id in redis.checkpoint then redis.checkpoint[id] else NO_CHECKPOINT;
      if comment.Some? { c := c.(lastCommentId := comment); }
      if processedAt.Some? { c := c.(lastProcessedAt := processedAt); }
      redis.checkpoint := redis.checkpoint[id := c.(updatedAt := Some(stamp))];
    }

    method GetCheckpoint(id: StreamId) returns (c: Checkpoint)
      ensures c == ReadCheckpoint(redis.View(), id)
    {
      c := if id in redis.checkpoint then redis.checkpoint[id] else NO_CHECKPOINT;
    }
  }

  /** One call of set_checkpoint. */
  datatype Write = Write(id: StreamId, comment: Option<string>, processedAt: Option<string>, stamp: Stamp)

  function AfterWrites(st: Store, writes: seq<Write>): Store {
    if writes == [] then st else
    var w := writes[|writes| - 1];
    AfterCheckpoint(AfterWrites(st, writes[..|writes| - 1]), w.id, w.comment, w.processedAt, w.stamp)
  }

  /** The last value that any of the writes gives for this stream's field, or else what was there. */
  function LastGiven<T>(
    writes: seq<Write>, id: StreamId, field: Write -> Option<T>, before: Option<T>): Option<T>
  {
    if writes == [] then before else
    var w := writes[|writes| - 1];
    if w.id == id && field(w).Some? then field(w) else LastGiven(writes[..|writes| - 1], id, field, before)
  }

  /** get_checkpoint after any sequence of partial set_checkpoint calls, on this and other streams: each field
      is the last one given for this stream, and its stamp that of the last call which gave any. */
  lemma {:induction false} FieldsAreLastGiven(st: Store, writes: seq<Write>, id: StreamId)
    ensures var before, c := ReadCheckpoint(st, id), ReadCheckpoint(AfterWrites(st, writes), id);
            && c.lastCommentId == LastGiven(writes, id, (w: Write) => w.comment, before.lastCommentId)
            && c.lastProcessedAt == LastGiven(writes, id, (w: Write) => w.processedAt, before.lastProcessedAt)
            && c.updatedAt == LastGiven(writes, id, Stamped, before.updatedAt)
  {
    if writes != [] {
      FieldsAreLastGiven(st, writes[..|writes| - 1], id);
    }
  }

  function Stamped(w: Write): Option<Stamp> {
    if w.comment.None? && w.processedAt.None? then None else Some(w.stamp)
  }

  /** Stop, clean up, start again: the stream comes back under its old id and with its checkpoint.
      A purging delete is what would make it a new stream. */
  lemma RestartKeepsCheckpoint(
    st: Store, sub: Subreddit, id: StreamId, inst: Option<InstanceId>, candidate: StreamId, stamp: Stamp, purge: bool)
    requires Lookup(st.sub, sub) == Some(id) && id in st.meta && st.meta[id].subreddit == Some(sub)
    ensures var gone := Deleted(st, id, sub, purge);
            var back := AfterCreate(gone, sub, inst, candidate, stamp);
            var next := ResolvedId(gone, sub, candidate);
            && sub !in gone.sub && id !in gone.meta
            && next == (if purge then candidate else id)
            && back.meta[next] == NewMeta(sub, inst, stamp) && back.sub[sub] == back.identity[sub] == next
            && (!purge ==> ReadCheckpoint(back, id) == ReadCheckpoint(st, id))
            && (purge ==> ReadCheckpoint(back, id) == NO_CHECKPOINT)
  {
  }
}
