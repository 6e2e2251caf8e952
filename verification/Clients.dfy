/** The client programs of module Protocol when nobody interrupts them: command by command they do what the
    registry's methods, start_stream and cleanup do.
  */
module Clients {
  import opened Common
  import opened Store
  import opened Protocol
  import opened Cleanup
  import Lease

  /** The store, and a client alone with it. */
  datatype Point = Point(st: Store, c: Client)

  /** The client's next command. */
  function Next(p: Point, d: Draw): Point { Point(Effect(p.st, p.c, d), Advance(p.st, p.c, d)) }

  function Commands(d: Draw): Point -> Point { p => Next(p, d) }

  /** Some number of its commands later. */
  ghost predicate Reaches(p: Point, d: Draw, q: Point) { Leads(Commands(d), p, q) }

  lemma One(p: Point, d: Draw, q: Point)
    requires Next(p, d) == q
    ensures Reaches(p, d, q)
  {
    LeadsNowhere(Commands(d), p);
    LeadsOneMore(Commands(d), p, p);
  }

  lemma OneMore(p: Point, d: Draw, q: Point, r: Point)
    requires Reaches(p, d, q) && Next(q, d) == r
    ensures Reaches(p, d, r)
  {
    LeadsOneMore(Commands(d), p, q);
  }

  lemma Then(p: Point, d: Draw, q: Point, r: Point)
    requires Reaches(p, d, q) && Reaches(q, d, r)
    ensures Reaches(p, d, r)
  {
    LeadsOn(Commands(d), p, q, r);
  }

  // ---------------------------------------------------------------------------
  // create_stream
  // ---------------------------------------------------------------------------

  lemma AloneTracks(st: Store, sub: Subreddit, inst: Option<InstanceId>, id: StreamId, d: Draw)
    ensures Reaches(Point(st, CreateTrack(sub, inst, id)), d,
                    Point(st.(all := st.all + {id},
                              index := if inst.Some? then Sadd(st.index, inst.value, id) else st.index),
                          StartLease(sub, inst, id)))
  {
    var p := Point(st, CreateTrack(sub, inst, id));
    var st1 := st.(all := st.all + {id});
    if inst.None? {
      One(p, d, Point(st1, StartLease(sub, inst, id)));
    } else {
      var q := Point(st1, CreateIndex(sub, inst.value, id));
      One(p, d, q);
      OneMore(p, d, q, Point(st1.(index := Sadd(st.index, inst.value, id)), StartLease(sub, inst, id)));
    }
  }

  function Claimed(st: Store, sub: Subreddit, inst: Option<InstanceId>, id: StreamId, stamp: Stamp): Store {
    st.(sub := st.sub[sub := id],
        meta := st.meta[id := NewMeta(sub, inst, stamp)],
        all := st.all + {id},
        index := if inst.Some? then Sadd(st.index, inst.value, id) else st.index)
  }

  lemma AloneClaims(st: Store, sub: Subreddit, inst: Option<InstanceId>, id: StreamId, d: Draw)
    requires sub !in st.sub
    ensures Reaches(Point(st, CreateClaim(sub, inst, id)), d,
                    Point(Claimed(st, sub, inst, id, d.stamp), StartLease(sub, inst, id)))
  {
    var p := Point(st, CreateClaim(sub, inst, id));
    var st1 := st.(sub := st.sub[sub := id]);
    var st2 := st1.(meta := st.meta[id := NewMeta(sub, inst, d.stamp)]);
    var q, r := Point(st1, CreateMeta(sub, inst, id)), Point(st2, CreateTrack(sub, inst, id));
    One(p, d, q);
    OneMore(p, d, q, r);
    AloneTracks(st2, sub, inst, id, d);
    Then(p, d, r, Point(Claimed(st, sub, inst, id, d.stamp), StartLease(sub, inst, id)));
  }

  lemma AloneIdentifies(st: Store, sub: Subreddit, inst: Option<InstanceId>, d: Draw)
    ensures var id := if sub in st.identity then st.identity[sub] else d.uuid;
            Reaches(Point(st, CreateIdentity(sub, inst)), d,
                    Point(st.(identity := SetNx(st.identity, sub, id)), CreateClaim(sub, inst, id)))
  {
    var p := Point(st, CreateIdentity(sub, inst));
    if sub in st.identity {
      var q := Point(st, CreateReadIdentity(sub, inst));
      One(p, d, q);
      OneMore(p, d, q, Point(st, CreateClaim(sub, inst, st.identity[sub])));
    } else {
      One(p, d, Point(st.(identity := SetNx(st.identity, sub, d.uuid)), CreateClaim(sub, inst, d.uuid)));
    }
  }

  /** A creator alone does what the registry's create_stream does. */
  lemma AloneCreates(st: Store, sub: Subreddit, inst: Option<InstanceId>, d: Draw)
    ensures var id := ResolvedId(st, sub, d.uuid);
            Reaches(Point(st, CreateLook(sub, inst)), d,
                    Point(AfterCreate(st, sub, inst, d.uuid, d.stamp),
                          if sub in st.sub then AlreadyExists(sub, id) else StartLease(sub, inst, id)))
  {
    var p := Point(st, CreateLook(sub, inst));
    var id := ResolvedId(st, sub, d.uuid);
    var st1 := st.(identity := SetNx(st.identity, sub, id));
    if sub in st.sub {
      var q := Point(st, CreateBackfill(sub, id));
      One(p, d, q);
      OneMore(p, d, q, Point(st1, AlreadyExists(sub, id)));
    } else {
      var q, r := Point(st, CreateIdentity(sub, inst)), Point(st1, CreateClaim(sub, inst, id));
      One(p, d, q);
      AloneIdentifies(st, sub, inst, d);
      Then(p, d, q, r);
      AloneClaims(st1, sub, inst, id, d);
      Then(p, d, r, Point(Claimed(st1, sub, inst, id, d.stamp), StartLease(sub, inst, id)));
    }
  }

  /** A creator that loses its claim to another goes by the winner's id, and writes nothing. */
  lemma AloneLoses(st: Store, sub: Subreddit, inst: Option<InstanceId>, id: StreamId, d: Draw)
    requires sub in st.sub
    ensures Reaches(Point(st, CreateClaim(sub, inst, id)), d, Point(st, AlreadyExists(sub, st.sub[sub])))
  {
    var p, q := Point(st, CreateClaim(sub, inst, id)), Point(st, CreateLost(sub));
    One(p, d, q);
    OneMore(p, d, q, Point(st, AlreadyExists(sub, st.sub[sub])));
  }

  // ---------------------------------------------------------------------------
  // delete_stream, update_status, request_stop, and the programs of one or two commands
  // ---------------------------------------------------------------------------

  lemma EvalEffect(st: Store, c: Client, d: Draw)
    requires c.DeleteEval?
    ensures Effect(st, c, d) == AfterEval(st, c)
  {
  }

  lemma AloneDeletes(st: Store, id: StreamId, guard: Option<Meta>, rest: seq<Row>, d: Draw)
    ensures Reaches(Point(st, DeleteRead(id, guard, rest)), d,
                    Point(AfterDeleteStream(st, id, GuardStatus(guard), GuardStamp(guard), false), SweepNext(rest)))
  {
    var p := Point(st, DeleteRead(id, guard, rest));
    if id !in st.meta || st.meta[id].subreddit.None? {
      One(p, d, Point(st, SweepNext(rest)));
    } else {
      var m := st.meta[id];
      var c := DeleteEval(id, m.subreddit.value, m.instance, guard, rest);
      var st1 := AfterEval(st, c);
      One(p, d, Point(st, c));
      EvalEffect(st, c, d);
      if !EvalApplies(st, c) || m.instance.None? {
        OneMore(p, d, Point(st, c), Point(st1, SweepNext(rest)));
      } else {
        var q := Point(st1, DeleteUnindex(id, m.instance.value, rest));
        OneMore(p, d, Point(st, c), q);
        OneMore(p, d, q, Point(st1.(index := Srem(st.index, m.instance.value, {id})), SweepNext(rest)));
      }
    }
  }

  lemma AloneUpdatesStatus(st: Store, id: StreamId, status: Status, inst: Option<InstanceId>, d: Draw)
    ensures Reaches(Point(st, StatusWrite(id, status, inst)), d,
                    Point(AfterUpdateStatus(st, id, status, inst, d.stamp), Finished))
  {
    var p, st1 := Point(st, StatusWrite(id, status, inst)), WithStatus(st, id, status, inst, d.stamp);
    if inst.None? {
      One(p, d, Point(st1, Finished));
    } else {
      var q := Point(st1, StatusIndex(id, inst.value));
      One(p, d, q);
      OneMore(p, d, q, Point(AfterUpdateStatus(st, id, status, inst, d.stamp), Finished));
    }
  }

  lemma AloneRequestsStop(st: Store, id: StreamId, d: Draw)
    ensures Reaches(Point(st, StopRead(id)), d,
                    Point(if id in st.meta then StopRequested(st, id, d.stamp) else st, Finished))
  {
    var p := Point(st, StopRead(id));
    if id !in st.meta {
      One(p, d, Point(st, Finished));
    } else {
      var inst := st.meta[id].instance;
      var st1 := st.(stopRequests := st.stopRequests + {id});
      var q, r := Point(st, StopMark(id, inst)), Point(st1, StatusWrite(id, Stopping, inst));
      One(p, d, q);
      OneMore(p, d, q, r);
      AloneUpdatesStatus(st1, id, Stopping, inst, d);
      assert AfterUpdateStatus(st1, id, Stopping, inst, d.stamp) == StopRequested(st, id, d.stamp);
      Then(p, d, r, Point(StopRequested(st, id, d.stamp), Finished));
    }
  }

  /** A heartbeat of an active stream by its instance stamps and indexes it, any other changes nothing. */
  lemma AloneBeats(st: Store, id: StreamId, inst: InstanceId, d: Draw)
    ensures Next(Point(st, Heartbeat(id, inst)), d) ==
            Point(if id in st.meta && st.meta[id].instance == Some(inst) && st.meta[id].status == Active
                  then st.(meta := st.meta[id := st.meta[id].(updatedAt := d.stamp)], index := Sadd(st.index, inst, id))
                  else st, Finished)
  {
  }

  lemma AloneKeepsLease(st: Store, sub: Subreddit, token: Lease.Token, d: Draw)
    ensures var mine := sub in st.leases && d.now < st.leases[sub].expiry && st.leases[sub].token == token;
            && Next(Point(st, LeaseRefresh(sub, token)), d) ==
               Point(if mine then st.(leases := st.leases[sub := Lease.Lease(token, d.now + 60.0)]) else st, Finished)
            && Next(Point(st, LeaseRelease(sub, token)), d) ==
               Point(if mine then st.(leases := st.leases - {sub}) else st, Finished)
  {
  }

  /** A runner works under the id of the lookup key if that has metadata, and otherwise does not start. */
  lemma AloneLooks(st: Store, sub: Subreddit, d: Draw)
    ensures Reaches(Point(st, WorkerLook(sub)), d,
                    Point(st, if sub in st.sub && st.sub[sub] in st.meta && st.meta[st.sub[sub]].subreddit.Some?
                              then Worker(sub, st.sub[sub]) else Finished))
  {
    var p := Point(st, WorkerLook(sub));
    if sub !in st.sub {
      One(p, d, Point(st, Finished));
    } else {
      var q := Point(st, WorkerMeta(sub, st.sub[sub]));
      One(p, d, q);
      OneMore(p, d, q, Point(st, if st.sub[sub] in st.meta && st.meta[st.sub[sub]].subreddit.Some?
                                 then Worker(sub, st.sub[sub]) else Finished));
    }
  }

  /** A runner writes checkpoint after checkpoint, all three fields of its own stream and nothing else. */
  lemma AloneSaves(st: Store, sub: Subreddit, id: StreamId, d: Draw)
    ensures Next(Point(st, Worker(sub, id)), d) ==
            Point(st.(checkpoint :=
                    st.checkpoint[id := Checkpoint(Some(d.comment), Some(d.processedAt), Some(d.stamp))]),
                  Worker(sub, id))
  {
  }

  // ---------------------------------------------------------------------------
  // start_stream
  // ---------------------------------------------------------------------------

  function WithLease(st: Store, sub: Subreddit, d: Draw): Store {
    st.(leases := st.leases[sub := Lease.Lease(d.uuid, d.now + 60.0)])
  }

  /** With the lease free, a starter takes it and activates its stream. */
  lemma AloneStarts(st: Store, sub: Subreddit, inst: Option<InstanceId>, id: StreamId, d: Draw)
    requires sub in st.leases ==> st.leases[sub].expiry <= d.now
    ensures Reaches(Point(st, StartLease(sub, inst, id)), d,
                    Point(AfterUpdateStatus(WithLease(st, sub, d), id, Active, inst, d.stamp), Started(sub, id)))
  {
    var p, q := Point(st, StartLease(sub, inst, id)), Point(WithLease(st, sub, d), StartActivate(sub, inst, id));
    One(p, d, q);
    AloneActivates(WithLease(st, sub, d), sub, inst, id, d);
    Then(p, d, q, Point(AfterUpdateStatus(WithLease(st, sub, d), id, Active, inst, d.stamp), Started(sub, id)));
  }

  lemma AloneActivates(st: Store, sub: Subreddit, inst: Option<InstanceId>, id: StreamId, d: Draw)
    ensures Reaches(Point(st, StartActivate(sub, inst, id)), d,
                    Point(AfterUpdateStatus(st, id, Active, inst, d.stamp), Started(sub, id)))
  {
    var p, st1 := Point(st, StartActivate(sub, inst, id)), WithStatus(st, id, Active, inst, d.stamp);
    if inst.None? {
      One(p, d, Point(st1, Started(sub, id)));
    } else {
      var q := Point(st1, StartIndex(sub, inst.value, id));
      One(p, d, q);
      OneMore(p, d, q, Point(AfterUpdateStatus(st, id, Active, inst, d.stamp), Started(sub, id)));
    }
  }

  /** With the lease live in other hands, a starter takes its stream back, identity key and checkpoint apart. */
  lemma AloneRollsBack(st: Store, sub: Subreddit, inst: Option<InstanceId>, id: StreamId, d: Draw)
    returns (after: Store)
    requires sub in st.leases && d.now < st.leases[sub].expiry
    requires sub in st.sub && st.sub[sub] == id && id in st.meta && st.meta[id].subreddit == Some(sub)
    ensures Reaches(Point(st, StartLease(sub, inst, id)), d, Point(after, Finished))
    ensures after.leases == st.leases && after.checkpoint == st.checkpoint
    ensures after.sub == st.sub - {sub} && after.meta == st.meta - {id}
    ensures after.identity == st.identity[sub := id]
    ensures after.all == st.all - {id} && after.stopRequests == st.stopRequests - {id}
  {
    var p, q := Point(st, StartLease(sub, inst, id)), Point(st, DeleteRead(id, None, []));
    after := AfterDeleteStream(st, id, None, None, false);
    var r := Point(after, SweepNext([]));
    One(p, d, q);
    AloneDeletes(st, id, None, [], d);
    Then(p, d, q, r);
    OneMore(p, d, r, Point(after, Finished));
  }

  /** The keys of a stream just created. */
  lemma CreatedKeys(st: Store, sub: Subreddit, inst: Option<InstanceId>, candidate: StreamId, stamp: Stamp)
    requires sub !in st.sub
    ensures var id, made := ResolvedId(st, sub, candidate), AfterCreate(st, sub, inst, candidate, stamp);
            && id == (if sub in st.identity then st.identity[sub] else candidate)
            && made.sub == st.sub[sub := id] && made.identity == st.identity[sub := id]
            && made.meta == st.meta[id := Meta(Some(sub), Starting, inst, stamp)]
            && made.leases == st.leases && made.checkpoint == st.checkpoint
  {
  }

  /** What start_stream of a subreddit with no stream leaves alone: the other streams, and the id it ever had. */
  ghost predicate OnlyConcerns(st: Store, after: Store, sub: Subreddit, id: StreamId) {
    && after.identity == st.identity[sub := id]
    && after.checkpoint == st.checkpoint
    && after.sub - {sub} == st.sub - {sub}
    && after.meta - {id} == st.meta - {id}
  }

  lemma StartedKeys(st: Store, sub: Subreddit, inst: Option<InstanceId>, d: Draw, e: Draw)
    requires sub !in st.sub
    ensures var id := if sub in st.identity then st.identity[sub] else d.uuid;
            var after := AfterUpdateStatus(WithLease(AfterCreate(st, sub, inst, d.uuid, d.stamp), sub, e),
                                           id, Active, inst, e.stamp);
            && OnlyConcerns(st, after, sub, id)
            && sub in after.sub && after.sub[sub] == id
            && id in after.meta && after.meta[id] == Meta(Some(sub), Active, inst, e.stamp)
            && after.leases == st.leases[sub := Lease.Lease(e.uuid, e.now + 60.0)]
            && id in after.all && (inst.Some? ==> inst.value in after.index && id in after.index[inst.value])
  {
    CreatedKeys(st, sub, inst, d.uuid, d.stamp);
  }

  /** start_stream, undisturbed, with the lease free: the stream ends up active under this instance, with its old id
      if it ever had one, and the drawn token holds the lease for 60 s. */
  lemma AloneStartsStream(st: Store, sub: Subreddit, inst: Option<InstanceId>, d: Draw, e: Draw)
    returns (created: Point, after: Store)
    requires sub !in st.sub && (sub in st.leases ==> st.leases[sub].expiry <= e.now)
    ensures var id := if sub in st.identity then st.identity[sub] else d.uuid;
            && Reaches(Point(st, CreateLook(sub, inst)), d, created)
            && Reaches(created, e, Point(after, Started(sub, id)))
            && OnlyConcerns(st, after, sub, id)
            && sub in after.sub && after.sub[sub] == id
            && id in after.meta && after.meta[id] == Meta(Some(sub), Active, inst, e.stamp)
            && after.leases == st.leases[sub := Lease.Lease(e.uuid, e.now + 60.0)]
            && id in after.all && (inst.Some? ==> inst.value in after.index && id in after.index[inst.value])
  {
    var id := ResolvedId(st, sub, d.uuid);
    AloneCreates(st, sub, inst, d);
    CreatedKeys(st, sub, inst, d.uuid, d.stamp);
    var made := AfterCreate(st, sub, inst, d.uuid, d.stamp);
    created := Point(made, StartLease(sub, inst, id));
    AloneStarts(made, sub, inst, id, e);
    after := AfterUpdateStatus(WithLease(made, sub, e), id, Active, inst, e.stamp);
    StartedKeys(st, sub, inst, d, e);
  }

  /** start_stream, undisturbed, with the lease live in other hands: it fails, the lease is as it was, and nothing is
      left of the attempt but the identity key. */
  lemma AloneFailsToStart(st: Store, sub: Subreddit, inst: Option<InstanceId>, d: Draw, e: Draw)
    returns (created: Point, after: Store)
    requires sub !in st.sub && sub in st.leases && e.now < st.leases[sub].expiry
    ensures var id := if sub in st.identity then st.identity[sub] else d.uuid;
            && Reaches(Point(st, CreateLook(sub, inst)), d, created)
            && Reaches(created, e, Point(after, Finished))
            && OnlyConcerns(st, after, sub, id)
            && sub !in after.sub && id !in after.meta && after.leases == st.leases
  {
    var id := ResolvedId(st, sub, d.uuid);
    AloneCreates(st, sub, inst, d);
    CreatedKeys(st, sub, inst, d.uuid, d.stamp);
    var made := AfterCreate(st, sub, inst, d.uuid, d.stamp);
    created := Point(made, StartLease(sub, inst, id));
    after := AloneRollsBack(made, sub, inst, id, e);
  }

  // ---------------------------------------------------------------------------
  // cleanup
  // ---------------------------------------------------------------------------

  lemma AloneVisits(st: Store, row: Row, rest: seq<Row>, d: Draw)
    ensures Reaches(Point(st, SweepNext([row] + rest)), d, Point(Visited(st, row), SweepNext(rest)))
  {
    var p := Point(st, SweepNext([row] + rest));
    assert ([row] + rest)[1..] == rest;
    if IsDead(row.meta.status) && row.meta.subreddit.Some? {
      var q := Point(st, DeleteRead(row.id, Some(row.meta), rest));
      One(p, d, q);
      AloneDeletes(st, row.id, Some(row.meta), rest, d);
      Then(p, d, q, Point(Visited(st, row), SweepNext(rest)));
    } else {
      One(p, d, Point(st, SweepNext(rest)));
    }
  }

  /** From the k-th row on, with `st` the store at the sweep's start. */
  lemma {:induction false} AloneVisitsRows(
    st: Store, listed: set<StreamId>, rows: seq<Row>, k: nat, now: Store, d: Draw) returns (after: Store)
    requires k <= |rows| && RowsOf(rows, st.meta) && RowIds(rows) <= st.all
    requires SweptTo(st, RowIds(rows[..k]), listed, now)
    ensures Reaches(Point(now, SweepNext(rows[k..])), d, Point(after, Finished))
    ensures SweptTo(st, RowIds(rows), listed, after)
    decreases |rows| - k
  {
    var p := Point(now, SweepNext(rows[k..]));
    if k == |rows| {
      after := now;
      assert rows[..k] == rows && rows[k..] == [];
      One(p, d, Point(now, Finished));
    } else {
      var q := Point(Visited(now, rows[k]), SweepNext(rows[k + 1..]));
      RowIsNew(rows, st.meta, k);
      VisitStep(st, RowIds(rows[..k]), listed, rows[k], now);
      assert rows[k..] == [rows[k]] + rows[k + 1..];
      AloneVisits(now, rows[k], rows[k + 1..], d);
      after := AloneVisitsRows(st, listed, rows, k + 1, q.st, d);
      Then(p, d, q, Point(after, Finished));
    }
  }

  lemma {:induction false} ScanIsListing(st: Store, ids: set<StreamId>, order: seq<StreamId>)
    requires ToSet(order) <= ids && Distinct(order)
    ensures RowsOf(Scan(st, ids, order), st.meta) && RowIds(Scan(st, ids, order)) == ToSet(order) * st.meta.Keys
  {
    if order != [] {
      var init, id := order[..|order| - 1], order[|order| - 1];
      assert order == init + [id];
      assert ToSet(order) == ToSet(init) + {id} && id !in ToSet(init);
      ScanIsListing(st, ids, init);
      if id !in st.meta {
        assert Scan(st, ids, order) == Scan(st, ids, init);
      } else {
        assert Scan(st, ids, order) == Scan(st, ids, init) + [Row(id, st.meta[id])];
        RowIsFresh(Scan(st, ids, init), st.meta, id);
        RowIdsSnoc(Scan(st, ids, init), Row(id, st.meta[id]));
      }
    }
  }

  lemma AloneLists(st: Store, d: Draw)
    ensures Reaches(Point(st, SweepMembers), d,
                    Point(st.(all := st.all - (st.all - st.meta.Keys)), SweepNext(Scan(st, st.all, d.order))))
  {
    var p, q := Point(st, SweepMembers), Point(st, SweepScan(st.all));
    var rows := Scan(st, st.all, d.order);
    var r := Point(st, SweepPrune(st.all - st.meta.Keys, rows));
    One(p, d, q);
    OneMore(p, d, q, r);
    OneMore(p, d, r, Point(st.(all := st.all - (st.all - st.meta.Keys)), SweepNext(rows)));
  }

  /** An undisturbed sweep of the protocol, in whatever order the set is iterated, does what the cleanup task's
      method does: it retires exactly the listed stopped, errored and inactive streams. */
  lemma AloneSweeps(st: Store, d: Draw) returns (after: Store)
    requires ToSet(d.order) == st.all && Distinct(d.order)
    ensures Reaches(Point(st, SweepMembers), d, Point(after, Finished))
    ensures SweptTo(st, st.all, st.all * st.meta.Keys, after) && TerminalGone(st, after)
  {
    var rows := Scan(st, st.all, d.order);
    var listed := RowIds(rows);
    ScanIsListing(st, st.all, d.order);
    NoneVisited(st, listed);
    assert rows[..0] == [] && rows[0..] == rows;
    after := AloneVisitsRows(st, listed, rows, 0, st.(all := listed), d);
    assert st.all - (st.all - st.meta.Keys) == listed;
    AloneLists(st, d);
    Then(Point(st, SweepMembers), d, Point(st.(all := listed), SweepNext(rows)), Point(after, Finished));
    assert RetiredAmong(st, listed) == RetiredAmong(st, st.all);
    SameAfter(st, listed, st.all);
    SweepRetires(st, st.all * st.meta.Keys, after);
  }
}
