/** One sweep of tasks/dead_stream_cleanup.py over the registry, with nobody else writing
    (the interleaved sweep is a client in module Protocol).
  */
module Cleanup {
  import opened Common
  import opened Store

  /** A listed stream that the sweep retires: terminal, and created by create_stream. */
  predicate Retired(st: Store, id: StreamId) {
    id in st.all && id in st.meta && IsDead(st.meta[id].status) && st.meta[id].subreddit.Some?
  }

  predicate Swept(st: Store, ids: set<StreamId>, id: StreamId) {
    id in ids && Retired(st, id)
  }

  /** What is left of the metadata and the lookup keys once the streams of `ids` have been visited. */
  function MetaAfter(st: Store, ids: set<StreamId>): map<StreamId, Meta> {
    map id | id in st.meta && !Swept(st, ids, id) :: st.meta[id]
  }

  predicate KeyGoes(st: Store, ids: set<StreamId>, sub: Subreddit) {
    sub in st.sub && Swept(st, ids, st.sub[sub]) && st.meta[st.sub[sub]].subreddit == Some(sub)
  }

  function SubAfter(st: Store, ids: set<StreamId>): map<Subreddit, StreamId> {
    map sub | sub in st.sub && !KeyGoes(st, ids, sub) :: st.sub[sub]
  }

  predicate Distinct(ids: seq<StreamId>) {
    forall i, j :: 0 <= i < j < |ids| ==> ids[i] != ids[j]
  }

  function RetiredAmong(st: Store, ids: set<StreamId>): set<StreamId> {
    set id | id in ids && Retired(st, id)
  }

  function RowIds(rows: seq<Row>): set<StreamId> {
    set row | row in rows :: row.id
  }

  /** Every row is that stream's metadata, and no stream has two. */
  predicate RowsOf(rows: seq<Row>, meta: map<StreamId, Meta>) {
    && (forall i :: 0 <= i < |rows| ==> rows[i].id in meta && rows[i].meta == meta[rows[i].id])
    && (forall i, j :: 0 <= i < j < |rows| ==> rows[i].id != rows[j].id)
  }

  lemma RowIdsSnoc(rows: seq<Row>, row: Row)
    ensures RowIds(rows + [row]) == RowIds(rows) + {row.id}
  {
    assert forall r :: r in rows + [row] <==> r in rows || r == row;
  }

  lemma RowIsNew(rows: seq<Row>, meta: map<StreamId, Meta>, i: nat)
    requires RowsOf(rows, meta) && i < |rows|
    ensures rows[i].id !in RowIds(rows[..i]) && rows[i].id in RowIds(rows)
    ensures RowIds(rows[..i + 1]) == RowIds(rows[..i]) + {rows[i].id}
  {
    assert rows[..i + 1] == rows[..i] + [rows[i]];
    RowIdsSnoc(rows[..i], rows[i]);
    assert rows[i] in rows;
  }

  lemma RowIsFresh(rows: seq<Row>, meta: map<StreamId, Meta>, id: StreamId)
    requires RowsOf(rows, meta) && id in meta && id !in RowIds(rows)
    ensures RowsOf(rows + [Row(id, meta[id])], meta)
  {
    forall i | 0 <= i < |rows| ensures rows[i].id != id {
      assert rows[i] in rows;
    }
  }

  ghost predicate Names(st: Store, ids: set<StreamId>, sub: Subreddit) {
    exists id :: Swept(st, ids, id) && st.meta[id].subreddit == Some(sub)
  }

  /** Every identity key is retained: a retired stream's is written back (if several retired streams name
      one subreddit, the last one visited), and the others are as they were. */
  ghost predicate IdentityKept(st: Store, ids: set<StreamId>, identity: map<Subreddit, StreamId>) {
    forall s ::
      if Names(st, ids, s)
      then s in identity && Swept(st, ids, identity[s]) && st.meta[identity[s]].subreddit == Some(s)
      else Lookup(identity, s) == Lookup(st.identity, s)
  }

  /** An instance's index loses exactly the retired streams of that instance. */
  function Unindexed(st: Store, ids: set<StreamId>, inst: InstanceId): set<StreamId> {
    set id | id in Members(st.index, inst) && !(Swept(st, ids, id) && st.meta[id].instance == Some(inst))
  }

  ghost predicate IndexAfter(st: Store, ids: set<StreamId>, index: map<InstanceId, set<StreamId>>) {
    forall inst :: Members(index, inst) == Unindexed(st, ids, inst)
  }

  lemma VisitIdentity(st: Store, ids: set<StreamId>, id: StreamId, identity: map<Subreddit, StreamId>)
    requires IdentityKept(st, ids, identity) && Retired(st, id)
    ensures IdentityKept(st, ids + {id}, identity[st.meta[id].subreddit.value := id])
  {
    var more := ids + {id};
    forall s ensures Names(st, more, s) <==> Names(st, ids, s) || st.meta[id].subreddit == Some(s) {
      if st.meta[id].subreddit == Some(s) { assert Swept(st, more, id); }
      if x :| Swept(st, ids, x) && st.meta[x].subreddit == Some(s) { assert Swept(st, more, x); }
    }
  }

  lemma VisitIndex(st: Store, ids: set<StreamId>, id: StreamId, index: map<InstanceId, set<StreamId>>)
    requires IndexAfter(st, ids, index) && Retired(st, id)
    ensures IndexAfter(st, ids + {id}, match st.meta[id].instance
                                       case None => index
                                       case Some(inst) => Srem(index, inst, {id}))
  {
    forall inst: InstanceId
      ensures Unindexed(st, ids + {id}, inst) ==
              Unindexed(st, ids, inst) - if st.meta[id].instance == Some(inst) then {id} else {}
    {
      assert forall x :: Swept(st, ids + {id}, x) <==> Swept(st, ids, x) || x == id;
    }
  }

  /** A row that is not retired changes nothing of this. */
  lemma SparedKeeps(st: Store, ids: set<StreamId>, id: StreamId)
    requires !Retired(st, id)
    ensures forall identity :: IdentityKept(st, ids, identity) ==> IdentityKept(st, ids + {id}, identity)
    ensures forall index :: IndexAfter(st, ids, index) ==> IndexAfter(st, ids + {id}, index)
  {
    assert forall x :: Swept(st, ids + {id}, x) <==> Swept(st, ids, x);
    assert forall s :: Names(st, ids + {id}, s) <==> Names(st, ids, s);
    assert forall inst :: Unindexed(st, ids + {id}, inst) == Unindexed(st, ids, inst);
  }

  /** The store once the streams of `ids` have been visited, when `listed` were the listing. */
  ghost predicate SweptTo(st: Store, ids: set<StreamId>, listed: set<StreamId>, now: Store) {
    && now.meta == MetaAfter(st, ids)
    && now.sub == SubAfter(st, ids)
    && now.all == listed - RetiredAmong(st, ids)
    && now.stopRequests == st.stopRequests - RetiredAmong(st, ids)
    && IdentityKept(st, ids, now.identity)
    && IndexAfter(st, ids, now.index)
    && now.checkpoint == st.checkpoint && now.leases == st.leases
  }

  /** Visiting one more row. */
  lemma VisitOne(st: Store, ids: set<StreamId>, id: StreamId)
    requires id in st.meta && id !in ids
    ensures !Retired(st, id) ==>
              && MetaAfter(st, ids + {id}) == MetaAfter(st, ids)
              && SubAfter(st, ids + {id}) == SubAfter(st, ids)
              && RetiredAmong(st, ids + {id}) == RetiredAmong(st, ids)
    ensures Retired(st, id) ==>
              var sub := st.meta[id].subreddit.value;
              && MetaAfter(st, ids + {id}) == MetaAfter(st, ids) - {id}
              && SubAfter(st, ids + {id}) ==
                 (if Lookup(SubAfter(st, ids), sub) == Some(id) then SubAfter(st, ids) - {sub} else SubAfter(st, ids))
              && RetiredAmong(st, ids + {id}) == RetiredAmong(st, ids) + {id}
  {
    var more := ids + {id};
    forall x ensures Swept(st, more, x) <==> Swept(st, ids, x) || (x == id && Retired(st, id)) {}
    assert forall s :: KeyGoes(st, ids, s) ==> KeyGoes(st, more, s);
    assert forall s :: KeyGoes(st, more, s) && !KeyGoes(st, ids, s) ==>
             st.sub[s] == id && Retired(st, id) && st.meta[id].subreddit == Some(s);
  }

  lemma CountOne(st: Store, ids: set<StreamId>, id: StreamId)
    requires id in st.meta && id !in ids
    ensures |RetiredAmong(st, ids + {id})| == |RetiredAmong(st, ids)| + if Retired(st, id) then 1 else 0
  {
    VisitOne(st, ids, id);
    assert id !in RetiredAmong(st, ids);
  }

  lemma NoneVisited(st: Store, listed: set<StreamId>)
    ensures SweptTo(st, RowIds([]), listed, st.(all := listed)) && RetiredAmong(st, RowIds([])) == {}
  {
    assert MetaAfter(st, RowIds([])) == st.meta && SubAfter(st, RowIds([])) == st.sub;
  }

  lemma SameAfter(st: Store, a: set<StreamId>, b: set<StreamId>)
    requires RetiredAmong(st, a) == RetiredAmong(st, b)
    ensures forall listed, now :: SweptTo(st, a, listed, now) <==> SweptTo(st, b, listed, now)
  {
    assert forall id :: Swept(st, a, id) <==> id in RetiredAmong(st, a);
    assert forall id :: Swept(st, b, id) <==> id in RetiredAmong(st, b);
    assert forall s :: KeyGoes(st, a, s) <==> KeyGoes(st, b, s);
    assert forall s :: Names(st, a, s) <==> Names(st, b, s);
    assert forall inst :: Unindexed(st, a, inst) == Unindexed(st, b, inst);
    assert MetaAfter(st, a) == MetaAfter(st, b) && SubAfter(st, a) == SubAfter(st, b);
  }

  /** What visiting a row does to the store: delete_stream with the row's own status and stamp, or nothing. */
  function Visited(st: Store, row: Row): Store {
    if !IsDead(row.meta.status) || row.meta.subreddit.None? then st
    else AfterDeleteStream(st, row.id, Some(row.meta.status), Some(row.meta.updatedAt), false)
  }

  /** One more row visited. */
  lemma VisitStep(st: Store, seen: set<StreamId>, listed: set<StreamId>, row: Row, now: Store)
    requires row.id !in seen && row.id in st.all && row.id in st.meta && row.meta == st.meta[row.id]
    requires SweptTo(st, seen, listed, now)
    ensures SweptTo(st, seen + {row.id}, listed, Visited(now, row))
    ensures Visited(now, row) == now || Retired(st, row.id)
    ensures Retired(st, row.id) ==> row.id in now.meta && now.meta[row.id] == row.meta
  {
    VisitOne(st, seen, row.id);
    if Retired(st, row.id) {
      VisitIdentity(st, seen, row.id, now.identity);
      VisitIndex(st, seen, row.id, now.index);
    } else {
      SparedKeeps(st, seen, row.id);
    }
    assert now.meta[row.id] == row.meta;
  }

  /** What a whole sweep has done, in terms of the three terminal statuses. */
  ghost predicate TerminalGone(st: Store, now: Store) {
    && (forall id :: id in st.meta ==>
          (id !in now.meta <==>
             && id in st.all && st.meta[id].subreddit.Some?
             && (st.meta[id].status == Stopped || st.meta[id].status == Errored || st.meta[id].status == Inactive)))
    && (forall id :: id in now.meta ==> id in st.meta && now.meta[id] == st.meta[id])
    && (forall s :: s in st.sub && s !in now.sub ==> st.sub[s] in st.meta && st.sub[s] !in now.meta)
    && (forall s :: s in now.sub ==> s in st.sub && now.sub[s] == st.sub[s])
    && (forall s :: s in st.sub && st.sub[s] in st.meta && st.meta[st.sub[s]].subreddit == Some(s) ==>
          (s in now.sub <==> st.sub[s] in now.meta))
  }

  lemma SweepRetires(st: Store, listed: set<StreamId>, now: Store)
    requires SweptTo(st, st.all, listed, now)
    ensures TerminalGone(st, now)
  {
  }

  class DeadStreamCleanup {
    const registry: StreamRegistry

    constructor (registry: StreamRegistry)
      ensures this.registry == registry
    {
      this.registry := registry;
    }

    /** list_streams: one row for each listed stream with metadata; the listing forgets the others. */
    method ListStreams(order: seq<StreamId>) returns (rows: seq<Row>)
      requires ToSet(order) == registry.redis.all && Distinct(order)
      modifies registry.redis
      ensures RowsOf(rows, old(registry.redis.meta))
      ensures RowIds(rows) == old(registry.redis.all) * old(registry.redis.meta).Keys
      ensures registry.redis.View() == old(registry.redis.View()).(all := RowIds(rows))
    {
      var redis := registry.redis;
      rows := [];
      var stale: set<StreamId> := {};
      for k := 0 to |order|
        invariant redis.View() == old(redis.View())
        invariant RowsOf(rows, redis.meta)
        invariant RowIds(rows) == ToSet(order[..k]) * redis.meta.Keys
        invariant stale == ToSet(order[..k]) - redis.meta.Keys
      {
        var id := order[k];
        assert order[..k + 1] == order[..k] + [id];
        assert ToSet(order[..k + 1]) == ToSet(order[..k]) + {id} && id !in ToSet(order[..k]);
        if id !in redis.meta {
          stale := stale + {id};
        } else {
          RowIsFresh(rows, redis.meta, id);
          RowIdsSnoc(rows, Row(id, redis.meta[id]));
          rows := rows + [Row(id, redis.meta[id])];
        }
      }
      assert order[..|order|] == order;
      redis.all := redis.all - stale;
      assert redis.all == RowIds(rows);
    }

    /** The body of cleanup's loop on one row. `st` is the store before the sweep, `seen` the rows before this one. */
    method VisitRow(row: Row, ghost st: Store, ghost seen: set<StreamId>, ghost listed: set<StreamId>)
      returns (deleted: bool)
      requires row.id !in seen && row.id in st.all && row.id in st.meta && row.meta == st.meta[row.id]
      requires SweptTo(st, seen, listed, registry.redis.View())
      modifies registry.redis
      ensures deleted <==> Retired(st, row.id)
      ensures deleted <==>
                && row.meta.subreddit.Some?
                && (row.meta.status == Stopped || row.meta.status == Errored || row.meta.status == Inactive)
      ensures registry.redis.View() == Visited(old(registry.redis.View()), row)
      ensures SweptTo(st, seen + {row.id}, listed, registry.redis.View())
    {
      VisitStep(st, seen, listed, row, registry.redis.View());
      if !IsDead(row.meta.status) { return false; }
      if row.meta.subreddit.None? { return false; }
      deleted := registry.DeleteStream(row.id, Some(row.meta.status), Some(row.meta.updatedAt), false);
    }

    /** cleanup: afterwards exactly the terminal streams of the listing are gone, with their lookup keys
        where these were theirs, their stop requests and their index entries. It counts them, retains every
        identity key, and touches no checkpoint (nor, in this class, any lease). */
    method Cleanup(order: seq<StreamId>) returns (deadCount: nat)
      requires ToSet(order) == registry.redis.all && Distinct(order)
      modifies registry.redis
      ensures var st := old(registry.redis.View());
              && SweptTo(st, st.all, st.all * st.meta.Keys, registry.redis.View())
              && TerminalGone(st, registry.redis.View())
              && deadCount == |RetiredAmong(st, st.all)|
    {
      ghost var st := registry.redis.View();
      var rows := ListStreams(order);
      deadCount := VisitRows(rows, st);
      assert RetiredAmong(st, RowIds(rows)) == RetiredAmong(st, st.all);
      SameAfter(st, RowIds(rows), st.all);
      SweepRetires(st, st.all * st.meta.Keys, registry.redis.View());
    }

    /** cleanup's loop over the rows of the listing. */
    method VisitRows(rows: seq<Row>, ghost st: Store) returns (deadCount: nat)
      requires RowsOf(rows, st.meta) && RowIds(rows) <= st.all
      requires registry.redis.View() == st.(all := RowIds(rows))
      modifies registry.redis
      ensures SweptTo(st, RowIds(rows), RowIds(rows), registry.redis.View())
      ensures deadCount == |RetiredAmong(st, RowIds(rows))|
    {
      deadCount := 0;
      NoneVisited(st, RowIds(rows));
      for i := 0 to |rows|
        invariant SweptTo(st, RowIds(rows[..i]), RowIds(rows), registry.redis.View())
        invariant deadCount == |RetiredAmong(st, RowIds(rows[..i]))|
      {
        RowIsNew(rows, st.meta, i);
        CountOne(st, RowIds(rows[..i]), rows[i].id);
        var deleted := VisitRow(rows[i], st, RowIds(rows[..i]), RowIds(rows));
        if deleted { deadCount := deadCount + 1; }
      }
      assert rows[..|rows|] == rows;
    }
  }
}
