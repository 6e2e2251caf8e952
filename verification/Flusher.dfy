/** The write-behind flusher of tasks/checkpoint_flusher.py: Redis checkpoints of the streams
    that this instance owns, upserted into Postgres in one transaction.
  */
module Flusher {
  import opened Common
  import opened Store

  type Time = int

  /** The data columns of stream_checkpoints. */
  datatype SavedRow = SavedRow(lastCommentId: Option<string>, lastProcessedAt: Option<Time>)

  type Rows = map<StreamId, SavedRow>

  /** _parse_checkpoint_data over any ISO parser; None is a value it cannot parse. */
  function Parse(iso: string -> Option<Time>, c: Checkpoint): Option<SavedRow> {
    if c.lastProcessedAt.None? || c.lastProcessedAt.value == "" then Some(SavedRow(c.lastCommentId, None))
    else match iso(c.lastProcessedAt.value)
         case None => None
         case Some(t) => Some(SavedRow(c.lastCommentId, Some(t)))
  }

  predicate Owns(meta: map<StreamId, Meta>, inst: InstanceId, id: StreamId) {
    id in meta && meta[id].instance == Some(inst)
  }

  /** The row a flush writes for a stream, if it writes one. */
  function RowFor(
    iso: string -> Option<Time>, meta: map<StreamId, Meta>, checkpoint: map<StreamId, Checkpoint>, inst: InstanceId,
    id: StreamId)
    : Option<SavedRow>
  {
    if Owns(meta, inst, id) && id in checkpoint then Parse(iso, checkpoint[id]) else None
  }

  /** What a flush is for: the old rows, overridden by the parsed checkpoints of exactly the indexed
      streams whose metadata names this instance. */
  function Overridden(
    iso: string -> Option<Time>, meta: map<StreamId, Meta>, checkpoint: map<StreamId, Checkpoint>, inst: InstanceId,
    ids: set<StreamId>, rows: Rows): Rows
  {
    rows + map id | id in ids && RowFor(iso, meta, checkpoint, inst, id).Some? ::
             RowFor(iso, meta, checkpoint, inst, id).value
  }

  /** The index without the entries whose metadata is gone or names another instance. */
  function Pruned(meta: map<StreamId, Meta>, inst: InstanceId, ids: set<StreamId>): set<StreamId> {
    set id | id in ids && Owns(meta, inst, id)
  }

  // ---------------------------------------------------------------------------
  // The loop's lists
  // ---------------------------------------------------------------------------

  datatype Parameter = Parameter(id: StreamId, row: SavedRow)

  function StaleIds(meta: map<StreamId, Meta>, inst: InstanceId, ids: seq<StreamId>): seq<StreamId> {
    if ids == [] then [] else
    var id := ids[|ids| - 1];
    StaleIds(meta, inst, ids[..|ids| - 1]) + if Owns(meta, inst, id) then [] else [id]
  }

  function Batch(
    iso: string -> Option<Time>, meta: map<StreamId, Meta>, checkpoint: map<StreamId, Checkpoint>, inst: InstanceId,
    ids: seq<StreamId>)
    : seq<Parameter>
  {
    if ids == [] then [] else
    var id := ids[|ids| - 1];
    var row := RowFor(iso, meta, checkpoint, inst, id);
    Batch(iso, meta, checkpoint, inst, ids[..|ids| - 1]) + if row.Some? then [Parameter(id, row.value)] else []
  }

  function Upserted(rows: Rows, batch: seq<Parameter>): Rows {
    if batch == [] then rows else
    var p := batch[|batch| - 1];
    Upserted(rows, batch[..|batch| - 1])[p.id := p.row]
  }

  lemma {:induction false} StaleMembers(meta: map<StreamId, Meta>, inst: InstanceId, ids: seq<StreamId>)
    ensures forall id :: id in StaleIds(meta, inst, ids) <==> id in ids && !Owns(meta, inst, id)
  {
    if ids != [] {
      StaleMembers(meta, inst, ids[..|ids| - 1]);
      assert ids == ids[..|ids| - 1] + [ids[|ids| - 1]];
    }
  }

  function Without(ids: set<StreamId>, stale: seq<StreamId>): set<StreamId> {
    set id | id in ids && id !in stale
  }

  lemma PruningStale(meta: map<StreamId, Meta>, inst: InstanceId, ids: seq<StreamId>)
    ensures Without(ToSet(ids), StaleIds(meta, inst, ids)) == Pruned(meta, inst, ToSet(ids))
    ensures StaleIds(meta, inst, ids) == [] <==> Pruned(meta, inst, ToSet(ids)) == ToSet(ids)
  {
    StaleMembers(meta, inst, ids);
    var stale := StaleIds(meta, inst, ids);
    if stale != [] {
      assert stale[0] in stale;
      assert stale[0] in ToSet(ids) && stale[0] !in Pruned(meta, inst, ToSet(ids));
    }
  }

  /** The row of a time that is absent or empty has none; any other time must parse. */
  predicate TimeParses(iso: string -> Option<Time>, c: Checkpoint) {
    c.lastProcessedAt == None || c.lastProcessedAt == Some("") || iso(c.lastProcessedAt.value).Some?
  }

  /** A flush row by row: the comment id is the checkpoint's, the time its parsed one, and a stream that is not indexed,
      not this instance's, without a checkpoint or with a time that does not parse keeps the row it had. */
  lemma FlushedRow(
    iso: string -> Option<Time>, meta: map<StreamId, Meta>, checkpoint: map<StreamId, Checkpoint>, inst: InstanceId,
    ids: set<StreamId>, rows: Rows, id: StreamId)
    ensures var after := Overridden(iso, meta, checkpoint, inst, ids, rows);
            if id in ids && id in meta && meta[id].instance == Some(inst)
               && id in checkpoint && TimeParses(iso, checkpoint[id])
            then
              && id in after
              && after[id].lastCommentId == checkpoint[id].lastCommentId
              && after[id].lastProcessedAt ==
                 if checkpoint[id].lastProcessedAt == None || checkpoint[id].lastProcessedAt == Some("") then None
                 else iso(checkpoint[id].lastProcessedAt.value)
            else (id in after <==> id in rows) && (id in rows ==> after[id] == rows[id])
  {
  }

  /** What stays indexed: the streams whose metadata names this instance. */
  lemma PrunedEntries(meta: map<StreamId, Meta>, inst: InstanceId, ids: set<StreamId>, id: StreamId)
    ensures id in Pruned(meta, inst, ids) <==> id in ids && id in meta && meta[id].instance == Some(inst)
  {
  }

  lemma OverrideOneMore(
    iso: string -> Option<Time>, meta: map<StreamId, Meta>, checkpoint: map<StreamId, Checkpoint>, inst: InstanceId,
    ids: set<StreamId>, id: StreamId, rows: Rows)
    ensures var row := RowFor(iso, meta, checkpoint, inst, id);
            var before := Overridden(iso, meta, checkpoint, inst, ids, rows);
            Overridden(iso, meta, checkpoint, inst, ids + {id}, rows) ==
            if row.Some? then before[id := row.value] else before
  {
  }

  /** Upserting the batch, in whatever order the index was iterated, is the override. */
  lemma {:induction false} BatchOverrides(
    iso: string -> Option<Time>, meta: map<StreamId, Meta>, checkpoint: map<StreamId, Checkpoint>, inst: InstanceId,
    ids: seq<StreamId>, rows: Rows)
    ensures Upserted(rows, Batch(iso, meta, checkpoint, inst, ids)) ==
            Overridden(iso, meta, checkpoint, inst, ToSet(ids), rows)
  {
    if ids == [] {
      assert Overridden(iso, meta, checkpoint, inst, {}, rows) == rows;
    } else {
      var init, id := ids[..|ids| - 1], ids[|ids| - 1];
      BatchOverrides(iso, meta, checkpoint, inst, init, rows);
      OverrideOneMore(iso, meta, checkpoint, inst, ToSet(init), id, rows);
      assert ToSet(ids) == ToSet(init) + {id} by { assert ids == init + [id]; }
      var batch := Batch(iso, meta, checkpoint, inst, ids);
      if RowFor(iso, meta, checkpoint, inst, id).Some? {
        assert batch[..|batch| - 1] == Batch(iso, meta, checkpoint, inst, init);
      } else {
        assert batch == Batch(iso, meta, checkpoint, inst, init);
      }
    }
  }

  // ---------------------------------------------------------------------------
  // The class
  // ---------------------------------------------------------------------------

  /** The first command of a flush that raises, if any; an upsert fails after some of its rows. */
  datatype Fault = NoFault | MembersRaises | PipelineRaises | PruneRaises | UpsertRaises(after: nat)

  /** One entry of the pipeline's result list. */
  datatype Reply = MetaReply(meta: Option<Meta>) | CheckpointReply(checkpoint: Option<Checkpoint>)

  class CheckpointFlusher {
    const instance: InstanceId
    const iso: string -> Option<Time>
    var index: set<StreamId>
    var meta: map<StreamId, Meta>
    var checkpoint: map<StreamId, Checkpoint>
    var rows: Rows

    constructor (instance: InstanceId, iso: string -> Option<Time>, index: set<StreamId>,
                 meta: map<StreamId, Meta>, checkpoint: map<StreamId, Checkpoint>, rows: Rows)
      ensures this.instance == instance && this.iso == iso && this.index == index
      ensures this.meta == meta && this.checkpoint == checkpoint && this.rows == rows
    {
      this.instance, this.iso, this.index := instance, iso, index;
      this.meta, this.checkpoint, this.rows := meta, checkpoint, rows;
    }

    /** pipe.execute(): two replies per id, metadata first. */
    method ExecutePipeline(ids: seq<StreamId>) returns (results: seq<Reply>)
      ensures |results| == 2 * |ids|
      ensures forall i :: 0 <= i < |ids| ==>
                && results[2 * i] == MetaReply(Lookup(meta, ids[i]))
                && results[2 * i + 1] == CheckpointReply(Lookup(checkpoint, ids[i]))
    {
      results := [];
      for i := 0 to |ids|
        invariant |results| == 2 * i
        invariant forall j :: 0 <= j < i ==>
                    && results[2 * j] == MetaReply(Lookup(meta, ids[j]))
                    && results[2 * j + 1] == CheckpointReply(Lookup(checkpoint, ids[j]))
      {
        results := results + [MetaReply(Lookup(meta, ids[i])), CheckpointReply(Lookup(checkpoint, ids[i]))];
      }
    }

    /** _upsert_checkpoints: all rows or, after a rollback, none. */
    method UpsertCheckpoints(batch: seq<Parameter>, failAfter: Option<nat>) returns (ok: bool)
      modifies this`rows
      ensures ok <==> failAfter.None? || failAfter.value >= |batch|
      ensures rows == if ok then Upserted(old(rows), batch) else old(rows)
    {
      var saved := rows;
      for i := 0 to |batch|
        invariant rows == Upserted(saved, batch[..i])
        invariant failAfter.Some? ==> i <= failAfter.value
      {
        if failAfter == Some(i) {
          rows := saved;
          return false;
        }
        assert batch[..i + 1][..i] == batch[..i];
        rows := rows[batch[i].id := batch[i].row];
      }
      assert batch[..|batch|] == batch;
      return true;
    }

    /** The loop of flush: entry 2i of the results is the metadata of id i, entry 2i + 1 its checkpoint, and
        every id is stale, or has nothing to flush, or is in the batch. */
    method Partition(ids: seq<StreamId>, results: seq<Reply>) returns (stale: seq<StreamId>, batch: seq<Parameter>)
      requires |results| == 2 * |ids|
      requires forall i :: 0 <= i < |ids| ==>
                 && results[2 * i] == MetaReply(Lookup(meta, ids[i]))
                 && results[2 * i + 1] == CheckpointReply(Lookup(checkpoint, ids[i]))
      ensures stale == StaleIds(meta, instance, ids)
      ensures batch == Batch(iso, meta, checkpoint, instance, ids)
    {
      batch, stale := [], [];
      for i := 0 to |ids|
        invariant stale == StaleIds(meta, instance, ids[..i])
        invariant batch == Batch(iso, meta, checkpoint, instance, ids[..i])
      {
        assert ids[..i + 1][..i] == ids[..i];
        assert results[2 * i] == MetaReply(Lookup(meta, ids[i]));
        var m := results[i * 2].meta;
        var c := results[i * 2 + 1].checkpoint;
        if m.None? || m.value.instance != Some(instance) {
          stale := stale + [ids[i]];
          continue;
        }
        if c.None? { continue; }
        var parsed := Parse(iso, c.value);
        if parsed.None? { continue; }
        batch := batch + [Parameter(ids[i], parsed.value)];
      }
      assert ids[..|ids|] == ids;
    }

    /** flush, where `ids` is the answer of SMEMBERS in its iteration order. */
    method Flush(ids: seq<StreamId>, fault: Fault)
      requires ToSet(ids) == index
      modifies this`index, this`rows
      ensures fault.NoFault? ==> rows == Overridden(iso, meta, checkpoint, instance, old(index), old(rows))
      ensures fault.NoFault? || fault.UpsertRaises? ==> index == Pruned(meta, instance, old(index))
      ensures rows == old(rows) || rows == Overridden(iso, meta, checkpoint, instance, old(index), old(rows))
      ensures fault.MembersRaises? || fault.PipelineRaises? ==> rows == old(rows) && index == old(index)
      ensures fault.PruneRaises? ==> index == old(index)
      ensures fault.PruneRaises? && index != Pruned(meta, instance, index) ==> rows == old(rows)
    {
      BatchOverrides(iso, meta, checkpoint, instance, ids, rows);
      PruningStale(meta, instance, ids);
      if fault.MembersRaises? { return; }
      if |ids| == 0 { return; }
      if fault.PipelineRaises? { return; }
      var results := ExecutePipeline(ids);
      var stale, batch := Partition(ids, results);
      if |stale| > 0 {
        if fault.PruneRaises? { return; }
        index := Without(index, stale);
      }
      if |batch| > 0 {
        var ok := UpsertCheckpoints(batch, if fault.UpsertRaises? then Some(fault.after) else None);
      }
    }
  }

  /** A second flush with nothing written in between changes neither the rows nor the index. */
  lemma FlushTwice(
    iso: string -> Option<Time>, meta: map<StreamId, Meta>, checkpoint: map<StreamId, Checkpoint>, inst: InstanceId,
    ids: set<StreamId>, rows: Rows)
    ensures var once := Overridden(iso, meta, checkpoint, inst, ids, rows);
            var left := Pruned(meta, inst, ids);
            Overridden(iso, meta, checkpoint, inst, left, once) == once && Pruned(meta, inst, left) == left
  {
  }

  // ---------------------------------------------------------------------------
  // Any number of flushers
  // ---------------------------------------------------------------------------

  type FlusherId = nat

  /** Between a flusher's commands: the ids of SMEMBERS, and what the pipeline left to do. The last two are also
      flush_stream_on_stop, which reads one hash and upserts it. */
  datatype Task =
    | ToRead(inst: InstanceId, ids: seq<StreamId>)
    | ToUpsert(batch: seq<Parameter>)

  datatype World = World(
    index: map<InstanceId, set<StreamId>>, meta: map<StreamId, Meta>, checkpoint: map<StreamId, Checkpoint>,
    rows: Rows, tasks: map<FlusherId, Task>)

  datatype Event =
    | Redis(index: map<InstanceId, set<StreamId>>, meta: map<StreamId, Meta>, checkpoint: map<StreamId, Checkpoint>)
    | Members(f: FlusherId, inst: InstanceId, order: seq<StreamId>)
    | Read(f: FlusherId)
    | ReadOnStop(f: FlusherId, id: StreamId)
    | Upsert(f: FlusherId, ok: bool)

  /** Redis changes in any way at any moment; a flusher that fails starts over. */
  function Step(iso: string -> Option<Time>, w: World, e: Event): World {
    match e
    case Redis(index, meta, checkpoint) => w.(index := index, meta := meta, checkpoint := checkpoint)
    case Members(f, inst, order) => w.(tasks := w.tasks[f := ToRead(inst, order)])
    case Read(f) =>
      if f in w.tasks && w.tasks[f].ToRead? then
        var t := w.tasks[f];
        w.(tasks := w.tasks[f := ToUpsert(Batch(iso, w.meta, w.checkpoint, t.inst, t.ids))])
      else w
    case ReadOnStop(f, id) =>
      var row := if id in w.checkpoint then Parse(iso, w.checkpoint[id]) else None;
      if row.Some? then w.(tasks := w.tasks[f := ToUpsert([Parameter(id, row.value)])]) else w
    case Upsert(f, ok) =>
      if f in w.tasks && w.tasks[f].ToUpsert? && ok
      then w.(rows := Upserted(w.rows, w.tasks[f].batch), tasks := w.tasks - {f})
      else w
  }

  function Exec(iso: string -> Option<Time>, w: World, es: seq<Event>): World {
    if es == [] then w else Step(iso, Exec(iso, w, es[..|es| - 1]), es[|es| - 1])
  }

  /** A flusher that nobody interrupts does what its method does, for any iteration order of the index. */
  lemma LoneFlush(iso: string -> Option<Time>, w: World, f: FlusherId, inst: InstanceId, order: seq<StreamId>)
    ensures var read := Step(iso, Step(iso, w, Members(f, inst, order)), Read(f));
            && Step(iso, read, Upsert(f, true)).rows ==
               Overridden(iso, w.meta, w.checkpoint, inst, ToSet(order), w.rows)
            && Step(iso, read, Upsert(f, false)).rows == w.rows
  {
    BatchOverrides(iso, w.meta, w.checkpoint, inst, order, w.rows);
  }

  /** flush_stream_on_stop writes the one row, if the stream has a checkpoint whose time parses. */
  lemma LoneFlushOnStop(iso: string -> Option<Time>, w: World, f: FlusherId, id: StreamId)
    requires f !in w.tasks
    ensures var rows := Step(iso, Step(iso, w, ReadOnStop(f, id)), Upsert(f, true)).rows;
            if id in w.checkpoint && TimeParses(iso, w.checkpoint[id])
            then
              && rows - {id} == w.rows - {id}
              && id in rows && rows[id].lastCommentId == w.checkpoint[id].lastCommentId
            else rows == w.rows
  {
    if id in w.checkpoint && TimeParses(iso, w.checkpoint[id]) {
      var p := Parameter(id, Parse(iso, w.checkpoint[id]).value);
      assert [p][..0] == [];
      assert Upserted(w.rows, [p]) == w.rows[id := p.row];
    }
  }

  /** At some moment of this run the stream's checkpoint in Redis parsed to this row. */
  ghost predicate HeldOnce(iso: string -> Option<Time>, w: World, es: seq<Event>, p: Parameter) {
    exists k :: 0 <= k <= |es| && HeldAt(iso, Exec(iso, w, es[..k]), p)
  }

  predicate HeldAt(iso: string -> Option<Time>, w: World, p: Parameter) {
    p.id in w.checkpoint && Parse(iso, w.checkpoint[p.id]) == Some(p.row)
  }

  ghost predicate HistoryInv(iso: string -> Option<Time>, w: World, es: seq<Event>) {
    var v := Exec(iso, w, es);
    && (forall id :: id in v.rows ==>
          (id in w.rows && v.rows[id] == w.rows[id]) || HeldOnce(iso, w, es, Parameter(id, v.rows[id])))
    && (forall f, p :: f in v.tasks && v.tasks[f].ToUpsert? && p in v.tasks[f].batch ==> HeldOnce(iso, w, es, p))
  }

  lemma {:induction false} BatchIsHeld(iso: string -> Option<Time>, w: World, inst: InstanceId, ids: seq<StreamId>)
    ensures forall p :: p in Batch(iso, w.meta, w.checkpoint, inst, ids) ==> HeldAt(iso, w, p)
  {
    if ids != [] {
      BatchIsHeld(iso, w, inst, ids[..|ids| - 1]);
    }
  }

  lemma {:induction false} UpsertedRows(rows: Rows, batch: seq<Parameter>)
    ensures forall id :: id in Upserted(rows, batch) ==>
              || (id in rows && Upserted(rows, batch)[id] == rows[id])
              || Parameter(id, Upserted(rows, batch)[id]) in batch
  {
    if batch != [] {
      UpsertedRows(rows, batch[..|batch| - 1]);
      assert batch == batch[..|batch| - 1] + [batch[|batch| - 1]];
    }
  }

  lemma HeldEarlier(iso: string -> Option<Time>, w: World, es: seq<Event>, e: Event, p: Parameter)
    requires HeldOnce(iso, w, es, p)
    ensures HeldOnce(iso, w, es + [e], p)
  {
    var k :| 0 <= k <= |es| && HeldAt(iso, Exec(iso, w, es[..k]), p);
    assert (es + [e])[..k] == es[..k];
  }

  lemma HeldNow(iso: string -> Option<Time>, w: World, es: seq<Event>, p: Parameter)
    requires HeldAt(iso, Exec(iso, w, es), p)
    ensures HeldOnce(iso, w, es, p)
  {
    assert es[..|es|] == es;
  }

  lemma StepHistory(iso: string -> Option<Time>, w: World, es: seq<Event>, e: Event)
    requires HistoryInv(iso, w, es)
    ensures HistoryInv(iso, w, es + [e])
  {
    assert (es + [e])[..|es|] == es;
    var v := Exec(iso, w, es);
    forall p | HeldOnce(iso, w, es, p) ensures HeldOnce(iso, w, es + [e], p) { HeldEarlier(iso, w, es, e, p); }
    forall p | HeldAt(iso, v, p) ensures HeldOnce(iso, w, es, p) { HeldNow(iso, w, es, p); }
    match e
    case Read(f) =>
      if f in v.tasks && v.tasks[f].ToRead? { BatchIsHeld(iso, v, v.tasks[f].inst, v.tasks[f].ids); }
    case Upsert(f, ok) =>
      if f in v.tasks && v.tasks[f].ToUpsert? { UpsertedRows(v.rows, v.tasks[f].batch); }
    case _ =>
  }

  /** Every Postgres row is either untouched or the parse of a value that the stream's Redis
      checkpoint held at this or an earlier moment, however flushers and Redis interleave. */
  lemma {:induction false} RowsAreHistory(iso: string -> Option<Time>, w: World, es: seq<Event>)
    requires w.tasks == map[]
    ensures HistoryInv(iso, w, es)
  {
    if es != [] {
      RowsAreHistory(iso, w, es[..|es| - 1]);
      StepHistory(iso, w, es[..|es| - 1], es[|es| - 1]);
      assert es == es[..|es| - 1] + [es[|es| - 1]];
    }
  }
}
