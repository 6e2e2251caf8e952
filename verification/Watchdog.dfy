/** The lease watchdog of stream/worker.py as a timed transition system: any number
    of workers, one clock, expiry on the server, and timers that fire on time.

    A worker holds its lease from the moment the server stores its token. It then
    starts its refresh loop, and forever sleeps, refreshes within a timeout, and
    sends a heartbeat. Each phase carries the instant by which it has to be over;
    the clock may not pass such an instant, which is what "timers fire on time"
    means. Once the server has run the refresh script, its answer arrives within the
    client's reply limit or not at all. Requests may be resent, and the server may run
    the script at any moment, any number of times, even after its sender gave up. A
    worker is active while its refresh loop runs: until it sets its stop event, or is
    cancelled because its stream ended or `run` was cancelled.
  */
module Watchdog {
  import opened Common
  import opened Lease

  type WorkerId = nat

  /** The lease length and the delays, in seconds. `startup` bounds the time from the
      server storing the token to the refresh loop's first sleep, `heartbeat` the
      registry heartbeat call, and `reply` the time from the server running a script to
      the client having the answer. */
  datatype Timing = Timing(
    ttl: real, interval: real, timeout: real, startup: real, heartbeat: real, reply: real)
  {
    predicate Sane() {
      ttl > 0.0 && interval >= 0.0 && timeout >= 0.0 && startup >= 0.0 && heartbeat >= 0.0 && reply >= 0.0
    }

    /** How late the answer of a served refresh can come. */
    function AnswerDelay(): real { MinReal(reply, timeout) }

    /** The two inequalities the lease constants have to satisfy. */
    predicate Safe() {
      && startup + interval + timeout < ttl
      && AnswerDelay() + heartbeat + interval + timeout < ttl
    }
  }

  /** What a refresh has been answered, and the latest time for the answer to arrive. */
  datatype Answer = Waiting | Answered(ok: bool, until: real)

  datatype Phase =
    | Starting(due: real)
    | Sleeping(due: real)
    | Refreshing(due: real, answer: Answer)
    | Beating(due: real)
    | Stopped
  {
    /** The instant at which this phase is over at the latest. */
    function Deadline(): real
      requires !Stopped?
    {
      if Refreshing? && answer.Answered? then answer.until else due
    }
  }

  datatype Worker = Worker(sub: Subreddit, token: Token, phase: Phase) {
    predicate Active() { !phase.Stopped? }
  }

  datatype World = World(now: real, leases: Leases, workers: map<WorkerId, Worker>, issued: set<Token>) {
    predicate Active(w: WorkerId) { w in workers && workers[w].Active() }

    /** Worker w's token is what the server has stored, and it has not expired. */
    predicate Holds(w: WorkerId)
      requires w in workers
    {
      Owns(leases, workers[w].sub, workers[w].token, now)
    }

    /** No timer is overdue after dt more seconds. */
    ghost predicate MayTick(dt: real) {
      dt >= 0.0 && forall w :: Active(w) ==> now + dt <= workers[w].phase.Deadline()
    }
  }

  datatype Event =
    | Start(w: WorkerId, sub: Subreddit, token: Token)  // SET NX EX reaches the server
    | Begin(w: WorkerId)                                 // the refresh loop starts its first sleep
    | Wake(w: WorkerId)                                  // the sleep is over, the refresh is sent
    | Serve(w: WorkerId)                                 // the server runs the refresh script
    | Reply(w: WorkerId)                                 // the answer arrives
    | Resend(w: WorkerId)                                // the answer is lost, the client asks again
    | GiveUp(w: WorkerId)                                // timeout or any other refresh exception
    | BeatDone(w: WorkerId)                              // heartbeat returned or failed
    | Quit(w: WorkerId)                                  // cancelled, or its stream ended
    | Release(w: WorkerId)                               // the release script, after the end
    | Tick(dt: real)

  function Put(st: World, w: WorkerId, phase: Phase): World
    requires w in st.workers
  {
    st.(workers := st.workers[w := st.workers[w].(phase := phase)])
  }

  /** The server side of a refresh request; its answer goes to a worker that waits for one. */
  function Served(c: Timing, st: World, w: WorkerId): World
    requires w in st.workers
  {
    var x := st.workers[w];
    var st' := st.(leases := Refreshed(st.leases, x.sub, x.token, st.now, c.ttl));
    match x.phase
    case Refreshing(due, Waiting) =>
      Put(st', w, Refreshing(due, Answered(st.Holds(w), MinReal(due, st.now + c.reply))))
    case _ => st'
  }

  function StartWorker(c: Timing, st: World, w: WorkerId, sub: Subreddit, token: Token): World {
    if w in st.workers || token in st.issued then st else
    var st' := st.(issued := st.issued + {token});
    if Holder(st.leases, sub, st.now).Some? then st' else
    st'.(leases := Acquired(st.leases, sub, token, st.now, c.ttl),
         workers := st.workers[w := Worker(sub, token, Starting(st.now + c.startup))])
  }

  /** The refresh loop's next phase after an event of its own; an event that does not fit does nothing. */
  function NextPhase(c: Timing, now: real, e: Event, phase: Phase): Phase {
    match e
    case Begin(_) => if phase.Starting? then Sleeping(now + c.interval) else phase
    case Wake(_) => if phase.Sleeping? && phase.due <= now then Refreshing(now + c.timeout, Waiting) else phase
    case Reply(_) =>
      if !phase.Refreshing? || phase.answer.Waiting? then phase
      else if phase.answer.ok then Beating(now + c.heartbeat) else Stopped
    case Resend(_) => if phase.Refreshing? then Refreshing(phase.due, Waiting) else phase
    case GiveUp(_) => if phase.Refreshing? then Stopped else phase
    case BeatDone(_) => if phase.Beating? then Sleeping(now + c.interval) else phase
    case Quit(_) => Stopped
    case _ => phase
  }

  function StepWorker(c: Timing, st: World, e: Event): World
    requires !e.Start? && !e.Tick? && e.w in st.workers
  {
    var x := st.workers[e.w];
    match e
    case Serve(_) => Served(c, st, e.w)
    case Release(_) =>
      if x.phase.Stopped? then st.(leases := Released(st.leases, x.sub, x.token, st.now)) else st
    case _ => Put(st, e.w, NextPhase(c, st.now, e, x.phase))
  }

  /** An event that is not possible in a state leaves it as it is. */
  ghost function Step(c: Timing, st: World, e: Event): World {
    match e
    case Start(w, sub, token) => StartWorker(c, st, w, sub, token)
    case Tick(dt) => if st.MayTick(dt) then st.(now := st.now + dt) else st
    case _ => if e.w in st.workers then StepWorker(c, st, e) else st
  }

  ghost function Exec(c: Timing, st: World, es: seq<Event>): World {
    if es == [] then st else Step(c, Exec(c, st, es[..|es| - 1]), es[|es| - 1])
  }

  const INITIAL := World(0.0, map[], map[], {})

  // ---------------------------------------------------------------------------
  // The invariant
  // ---------------------------------------------------------------------------

  /** The latest instant at which a worker in this phase can still be active without
      having had another refresh served. */
  function Latest(c: Timing, phase: Phase): real
    requires !phase.Stopped?
  {
    match phase
    case Starting(due) => due + c.interval + c.timeout
    case Sleeping(due) => due + c.timeout
    case Refreshing(due, Waiting) => due
    case Refreshing(_, Answered(_, until)) => until + c.heartbeat + c.interval + c.timeout
    case Beating(due) => due + c.interval + c.timeout
  }

  predicate Refused(phase: Phase) { phase.Refreshing? && phase.answer.Answered? && !phase.answer.ok }

  ghost predicate Secured(c: Timing, st: World, w: WorkerId)
    requires w in st.workers && st.workers[w].Active()
  {
    var x := st.workers[w];
    && x.sub in st.leases
    && st.leases[x.sub].token == x.token
    && st.now <= x.phase.Deadline() <= x.phase.due
    && Latest(c, x.phase) < st.leases[x.sub].expiry
    && (x.phase.Refreshing? ==> x.phase.due <= st.now + c.timeout && !Refused(x.phase))
  }

  ghost predicate Inv(c: Timing, st: World) {
    && (forall w :: st.Active(w) ==> Secured(c, st, w))
    && TokensInv(c, st)
  }

  /** Tokens are issued once, and no lease is longer than ttl. */
  ghost predicate TokensInv(c: Timing, st: World) {
    && (forall w :: w in st.workers ==> st.workers[w].token in st.issued)
    && (forall s :: s in st.leases ==> st.leases[s].token in st.issued && st.leases[s].expiry <= st.now + c.ttl)
    && (forall v, w :: v in st.workers && w in st.workers && st.workers[v].token == st.workers[w].token ==> v == w)
  }

  lemma LatestIsLater(c: Timing, phase: Phase)
    requires c.Sane() && !phase.Stopped?
    ensures phase.Deadline() <= Latest(c, phase)
  {
  }

  /** What a worker does keeps its own lease long enough. */
  lemma OwnStepSecures(c: Timing, st: World, e: Event)
    requires c.Sane() && c.Safe() && Inv(c, st)
    requires !e.Start? && !e.Tick? && e.w in st.workers
    requires StepWorker(c, st, e).Active(e.w)
    ensures Secured(c, StepWorker(c, st, e), e.w)
  {
    assert st.Active(e.w) && Secured(c, st, e.w);
    LatestIsLater(c, st.workers[e.w].phase);
  }

  /** What a worker does leaves the lease of another active worker alone. */
  lemma OthersStaySecured(c: Timing, st: World, e: Event, v: WorkerId)
    requires c.Sane() && Inv(c, st)
    requires !e.Start? && !e.Tick? && e.w in st.workers && v != e.w && st.Active(v)
    ensures StepWorker(c, st, e).Active(v) && Secured(c, StepWorker(c, st, e), v)
  {
    assert Secured(c, st, v);
    assert st.workers[v].token != st.workers[e.w].token;
  }

  lemma StartSecures(c: Timing, st: World, w: WorkerId, sub: Subreddit, token: Token, v: WorkerId)
    requires c.Sane() && c.Safe() && Inv(c, st)
    requires StartWorker(c, st, w, sub, token).Active(v)
    ensures Secured(c, StartWorker(c, st, w, sub, token), v)
  {
    if st.Active(v) {
      assert Secured(c, st, v);
      LatestIsLater(c, st.workers[v].phase);
    }
  }

  lemma StepTokens(c: Timing, st: World, e: Event)
    requires c.Sane() && TokensInv(c, st)
    ensures TokensInv(c, Step(c, st, e))
  {
  }

  lemma StepInv(c: Timing, st: World, e: Event)
    requires c.Sane() && c.Safe() && Inv(c, st)
    ensures Inv(c, Step(c, st, e))
  {
    StepTokens(c, st, e);
    forall v | Step(c, st, e).Active(v)
      ensures Secured(c, Step(c, st, e), v)
    {
      match e
      case Start(w, sub, token) => StartSecures(c, st, w, sub, token, v);
      case Tick(dt) => assert Secured(c, st, v);
      case _ =>
        if e.w !in st.workers {
          assert Secured(c, st, v);
        } else if v == e.w {
          OwnStepSecures(c, st, e);
        } else {
          OthersStaySecured(c, st, e, v);
        }
    }
  }

  /** A refresh by its branches: sent when the sleep is over, answered by whether the live key holds this token, and
      a refusal, a failure or a cancellation is the end, while a success leads by a heartbeat to the next sleep. */
  lemma RefreshLeads(c: Timing, st: World, w: WorkerId)
    requires w in st.workers
    ensures var x := st.workers[w];
            var phase := (e: Event) => StepPhase(c, st, w, e);
            && (x.phase.Starting? ==> phase(Begin(w)) == Sleeping(st.now + c.interval))
            && (x.phase.Sleeping? ==>
                  phase(Wake(w)) ==
                  if x.phase.due <= st.now then Refreshing(st.now + c.timeout, Waiting) else x.phase)
            && (x.phase.Refreshing? ==> phase(GiveUp(w)) == Stopped && phase(Resend(w)).answer == Waiting)
            && (x.phase.Refreshing? && x.phase.answer.Answered? ==>
                  phase(Reply(w)) == if x.phase.answer.ok then Beating(st.now + c.heartbeat) else Stopped)
            && (x.phase.Refreshing? && x.phase.answer.Waiting? ==>
                  && phase(Serve(w)).answer.Answered?
                  && (phase(Serve(w)).answer.ok <==>
                        && x.sub in st.leases && st.leases[x.sub].token == x.token
                        && st.now < st.leases[x.sub].expiry))
            && (x.phase.Beating? ==> phase(BeatDone(w)) == Sleeping(st.now + c.interval))
            && phase(Quit(w)) == Stopped
    ensures var x := st.workers[w];
            var mine := x.sub in st.leases && st.leases[x.sub].token == x.token && st.now < st.leases[x.sub].expiry;
            && StepWorker(c, st, Serve(w)).leases ==
               (if mine then st.leases[x.sub := Lease(x.token, st.now + c.ttl)] else st.leases)
            && StepWorker(c, st, Event.Release(w)).leases ==
               (if mine && x.phase.Stopped? then st.leases - {x.sub} else st.leases)
  {
  }

  function StepPhase(c: Timing, st: World, w: WorkerId, e: Event): Phase
    requires w in st.workers
  {
    if !e.Start? && !e.Tick? && e.w == w then StepWorker(c, st, e).workers[w].phase else st.workers[w].phase
  }

  lemma {:induction false} ExecInv(c: Timing, es: seq<Event>)
    requires c.Sane() && c.Safe()
    ensures Inv(c, Exec(c, INITIAL, es))
  {
    if es != [] {
      ExecInv(c, es[..|es| - 1]);
      StepInv(c, Exec(c, INITIAL, es[..|es| - 1]), es[|es| - 1]);
    }
  }

  /** In every run, a worker whose stop event is clear has its own unexpired token stored. */
  lemma ActiveWorkerHoldsLease(c: Timing, es: seq<Event>, w: WorkerId)
    requires c.Sane() && c.Safe() && Exec(c, INITIAL, es).Active(w)
    ensures Exec(c, INITIAL, es).Holds(w)
  {
    ExecInv(c, es);
  }

  /** A refused or timed-out refresh stops the worker while its lease is still unexpired;
      under the two bounds the server in fact never refuses an active worker. */
  lemma StopsBeforeExpiry(c: Timing, es: seq<Event>, w: WorkerId)
    requires c.Sane() && c.Safe()
    requires Exec(c, INITIAL, es).Active(w) && !Exec(c, INITIAL, es + [GiveUp(w)]).Active(w)
    ensures Exec(c, INITIAL, es + [GiveUp(w)]).Holds(w)
    ensures !Refused(Exec(c, INITIAL, es).workers[w].phase)
  {
    ExecInv(c, es);
    assert (es + [GiveUp(w)])[..|es|] == es;
  }

  // ---------------------------------------------------------------------------
  // A worker by itself, round by round
  // ---------------------------------------------------------------------------

  lemma ExecSnoc(c: Timing, st: World, es: seq<Event>, e: Event)
    ensures Exec(c, st, es + [e]) == Step(c, Exec(c, st, es), e)
  {
    assert (es + [e])[..|es|] == es;
  }

  lemma {:induction false} ExecSplit(c: Timing, st: World, a: seq<Event>, b: seq<Event>)
    ensures Exec(c, st, a + b) == Exec(c, Exec(c, st, a), b)
  {
    if b == [] {
      assert a + b == a;
    } else {
      assert (a + b)[..|a + b| - 1] == a + b[..|b| - 1];
      ExecSplit(c, st, a, b[..|b| - 1]);
    }
  }

  /** One worker alone, over any leases, its own or not. */
  datatype Solo = Solo(sub: Subreddit, token: Token, now: real, leases: Leases, phase: Phase) {
    function Alone(): World {
      World(now, leases, map[0 := Worker(sub, token, phase)], {token})
    }

    predicate Owner() { Owns(leases, sub, token, now) }
  }

  lemma PutAlone(x: Solo, phase: Phase)
    ensures Put(x.Alone(), 0, phase) == x.(phase := phase).Alone()
  {
    assert map[0 := Worker(x.sub, x.token, x.phase)][0 := Worker(x.sub, x.token, phase)]
        == map[0 := Worker(x.sub, x.token, phase)];
  }

  /** Time passes within the current phase. */
  lemma SoloWaits(c: Timing, st: World, es: seq<Event>, x: Solo, dt: real)
    requires Exec(c, st, es) == x.Alone()
    requires !x.phase.Stopped? && dt >= 0.0 && x.now + dt <= x.phase.Deadline()
    ensures Exec(c, st, es + [Tick(dt)]) == x.(now := x.now + dt).Alone()
  {
    assert Exec(c, st, es).MayTick(dt);
    ExecSnoc(c, st, es, Tick(dt));
  }

  /** The worker's loop takes its next step. */
  lemma SoloActs(c: Timing, st: World, es: seq<Event>, e: Event, x: Solo)
    requires Exec(c, st, es) == x.Alone()
    requires !e.Start? && !e.Tick? && !e.Serve? && !e.Release? && e.w == 0
    ensures Exec(c, st, es + [e]) == x.(phase := NextPhase(c, x.now, e, x.phase)).Alone()
  {
    ExecSnoc(c, st, es, e);
    PutAlone(x, NextPhase(c, x.now, e, x.phase));
  }

  /** The server runs the script, and where the answer will be awaited. */
  function Asked(c: Timing, x: Solo): Solo
    requires x.phase.Refreshing?
  {
    x.(leases := Refreshed(x.leases, x.sub, x.token, x.now, c.ttl),
       phase := x.phase.(answer := Answered(x.Owner(), MinReal(x.phase.due, x.now + c.reply))))
  }

  lemma SoloIsServed(c: Timing, st: World, es: seq<Event>, x: Solo)
    requires Exec(c, st, es) == x.Alone() && x.phase.Refreshing? && x.phase.answer.Waiting?
    ensures Exec(c, st, es + [Serve(0)]) == Asked(c, x).Alone()
  {
    ExecSnoc(c, st, es, Serve(0));
    PutAlone(x.(leases := Asked(c, x).leases), Asked(c, x).phase);
  }

  /** What the environment does in one round: when the server runs the script (if it
      does), whether the answer arrives (if not: timeout or another exception), how long
      that takes, and how long the heartbeat takes. */
  datatype Round = Round(served: Option<real>, answered: bool, spent: real, beat: real) {
    predicate Fits(c: Timing) {
      && 0.0 <= spent <= c.timeout
      && 0.0 <= beat <= c.heartbeat
      && (served.Some? ==> 0.0 <= served.value <= spent <= served.value + c.reply)
      && (answered ==> served.Some?)
    }
  }

  /** The worker at the start of a round. */
  predicate Asleep(c: Timing, x: Solo) { x.phase == Sleeping(x.now + c.interval) }

  function Sent(c: Timing, x: Solo): Solo {
    var u := x.now + c.interval;
    x.(now := u, phase := Refreshing(u + c.timeout, Waiting))
  }

  /** The worker when its wait for the answer ends, and after the refresh. */
  function Waited(c: Timing, x: Solo, r: Round): Solo {
    var y := Sent(c, x);
    match r.served
    case None => y.(now := y.now + r.spent)
    case Some(d) => Asked(c, y.(now := y.now + d)).(now := y.now + r.spent)
  }

  /** Does the refresh of this round come back with success? */
  predicate Confirms(c: Timing, x: Solo, r: Round) {
    r.answered && r.served.Some? && Owns(x.leases, x.sub, x.token, x.now + c.interval + r.served.value)
  }

  function Rounded(c: Timing, x: Solo, r: Round): Solo {
    var y := Waited(c, x, r);
    if Confirms(c, x, r)
    then y.(now := y.now + r.beat, phase := Sleeping(y.now + r.beat + c.interval))
    else y.(phase := Stopped)
  }

  /** The same as events of the transition system. */
  function AskEvents(c: Timing): seq<Event> { [Tick(c.interval)] + [Wake(0)] }

  function WaitEvents(c: Timing, r: Round): seq<Event> {
    match r.served
    case None => AskEvents(c) + [Tick(r.spent)]
    case Some(d) => AskEvents(c) + [Tick(d)] + [Serve(0)] + [Tick(r.spent - d)]
  }

  function RoundEvents(c: Timing, x: Solo, r: Round): seq<Event> {
    if Confirms(c, x, r) then WaitEvents(c, r) + [Reply(0)] + [Tick(r.beat)] + [BeatDone(0)]
    else WaitEvents(c, r) + [if r.answered then Reply(0) else GiveUp(0)]
  }

  lemma SoloAsks(c: Timing, st: World, x: Solo)
    requires c.Sane() && Asleep(c, x) && st == x.Alone()
    ensures Exec(c, st, AskEvents(c)) == Sent(c, x).Alone()
  {
    SoloWaits(c, st, [], x, c.interval);
    assert [] + [Tick(c.interval)] == [Tick(c.interval)];
    SoloActs(c, st, [Tick(c.interval)], Wake(0), x.(now := x.now + c.interval));
  }

  lemma SoloWaitsForAnswer(c: Timing, st: World, x: Solo, r: Round)
    requires c.Sane() && r.Fits(c) && Asleep(c, x) && st == x.Alone()
    ensures Exec(c, st, WaitEvents(c, r)) == Waited(c, x, r).Alone()
  {
    SoloAsks(c, st, x);
    var y := Sent(c, x);
    match r.served
    case None => SoloWaits(c, st, AskEvents(c), y, r.spent);
    case Some(d) =>
      SoloWaits(c, st, AskEvents(c), y, d);
      var z := y.(now := y.now + d);
      SoloIsServed(c, st, AskEvents(c) + [Tick(d)], z);
      SoloWaits(c, st, AskEvents(c) + [Tick(d)] + [Serve(0)], Asked(c, z), r.spent - d);
  }

  lemma SoloBeats(c: Timing, st: World, es: seq<Event>, y: Solo, r: Round)
    requires r.Fits(c) && Exec(c, st, es) == y.Alone()
    requires y.phase.Refreshing? && y.phase.answer.Answered? && y.phase.answer.ok
    ensures Exec(c, st, es + [Reply(0)] + [Tick(r.beat)] + [BeatDone(0)]) ==
            y.(now := y.now + r.beat, phase := Sleeping(y.now + r.beat + c.interval)).Alone()
  {
    var z := y.(phase := Beating(y.now + c.heartbeat));
    SoloActs(c, st, es, Reply(0), y);
    SoloWaits(c, st, es + [Reply(0)], z, r.beat);
    SoloActs(c, st, es + [Reply(0)] + [Tick(r.beat)], BeatDone(0), z.(now := z.now + r.beat));
  }

  lemma SoloStops(c: Timing, st: World, es: seq<Event>, y: Solo, answered: bool)
    requires Exec(c, st, es) == y.Alone() && y.phase.Refreshing?
    requires answered ==> Refused(y.phase)
    ensures Exec(c, st, es + [if answered then Reply(0) else GiveUp(0)]) == y.(phase := Stopped).Alone()
  {
    SoloActs(c, st, es, if answered then Reply(0) else GiveUp(0), y);
  }

  lemma WaitedAnswer(c: Timing, x: Solo, r: Round)
    requires r.Fits(c)
    ensures var y := Waited(c, x, r);
            && y.phase.Refreshing?
            && (r.answered ==> y.phase.answer.Answered? && (y.phase.answer.ok <==> Confirms(c, x, r)))
  {
  }

  /** One round of the loop is a run of the transition system. */
  lemma RoundIsRun(c: Timing, st: World, x: Solo, r: Round)
    requires c.Sane() && r.Fits(c) && Asleep(c, x) && st == x.Alone()
    ensures Exec(c, st, RoundEvents(c, x, r)) == Rounded(c, x, r).Alone()
  {
    SoloWaitsForAnswer(c, st, x, r);
    WaitedAnswer(c, x, r);
    if Confirms(c, x, r) {
      SoloBeats(c, st, WaitEvents(c, r), Waited(c, x, r), r);
    } else {
      SoloStops(c, st, WaitEvents(c, r), Waited(c, x, r), r.answered);
    }
  }

  /** Round after round, until the worker stops. */
  function AfterRounds(c: Timing, x: Solo, rounds: seq<Round>): Solo {
    if rounds == [] then x else
    var before := AfterRounds(c, x, rounds[..|rounds| - 1]);
    if before.phase.Stopped? then before else Rounded(c, before, rounds[|rounds| - 1])
  }

  predicate AllFit(c: Timing, rounds: seq<Round>) { forall i :: 0 <= i < |rounds| ==> rounds[i].Fits(c) }

  predicate AllAnswered(rounds: seq<Round>) { forall i :: 0 <= i < |rounds| ==> rounds[i].answered }

  /** Whoever holds the lease, what the loop does in its rounds is a run of the transition system. */
  lemma {:induction false} RoundsAreRuns(c: Timing, x: Solo, rounds: seq<Round>) returns (es: seq<Event>)
    requires c.Sane() && AllFit(c, rounds) && Asleep(c, x)
    ensures Exec(c, x.Alone(), es) == AfterRounds(c, x, rounds).Alone()
    ensures var y := AfterRounds(c, x, rounds); y.phase.Stopped? || Asleep(c, y)
  {
    es := [];
    if rounds != [] {
      var init := rounds[..|rounds| - 1];
      es := RoundsAreRuns(c, x, init);
      var y := AfterRounds(c, x, init);
      if !y.phase.Stopped? {
        var r := rounds[|rounds| - 1];
        RoundIsRun(c, Exec(c, x.Alone(), es), y, r);
        ExecSplit(c, x.Alone(), es, RoundEvents(c, y, r));
        es := es + RoundEvents(c, y, r);
      }
    }
  }

  /** The lease is this token's and lasts until the end of the next refresh. */
  predicate Lasts(c: Timing, x: Solo) {
    x.sub in x.leases && x.leases[x.sub].token == x.token && x.now + c.interval + c.timeout < x.leases[x.sub].expiry
  }

  /** One round of a lease that lasts: it is confirmed if it is answered, and lasts on; and it is still
      unexpired when a refresh goes unanswered. */
  lemma LeaseLasts(c: Timing, x: Solo, r: Round)
    requires c.Sane() && c.Safe() && r.Fits(c) && Lasts(c, x)
    ensures var y := Rounded(c, x, r);
            && (Confirms(c, x, r) <==> r.answered)
            && y.Owner()
            && (y.phase.Stopped? <==> !r.answered)
            && (r.answered ==> Asleep(c, y) && Lasts(c, y))
  {
  }

  lemma LastIsAnswered(rounds: seq<Round>)
    requires rounds != []
    ensures AllAnswered(rounds) <==> AllAnswered(rounds[..|rounds| - 1]) && rounds[|rounds| - 1].answered
  {
  }

  /** From a lease that lasts: the loop stops exactly if a refresh goes unanswered, and owns the lease throughout. */
  lemma {:induction false} OnlySilenceStops(c: Timing, x: Solo, rounds: seq<Round>)
    requires c.Sane() && c.Safe() && AllFit(c, rounds) && Asleep(c, x) && Lasts(c, x)
    ensures var y := AfterRounds(c, x, rounds);
            && (y.phase.Stopped? <==> !AllAnswered(rounds))
            && y.Owner()
            && (!y.phase.Stopped? ==> Asleep(c, y) && Lasts(c, y))
  {
    if rounds != [] {
      var init := rounds[..|rounds| - 1];
      OnlySilenceStops(c, x, init);
      LastIsAnswered(rounds);
      var y := AfterRounds(c, x, init);
      if !y.phase.Stopped? { LeaseLasts(c, y, rounds[|rounds| - 1]); }
    }
  }

  lemma {:induction false} StaysStopped(c: Timing, x: Solo, rounds: seq<Round>, k: nat)
    requires k <= |rounds| && AfterRounds(c, x, rounds[..k]).phase.Stopped?
    ensures AfterRounds(c, x, rounds) == AfterRounds(c, x, rounds[..k])
    decreases |rounds|
  {
    if k < |rounds| {
      assert rounds[..|rounds| - 1][..k] == rounds[..k];
      StaysStopped(c, x, rounds[..|rounds| - 1], k);
    } else {
      assert rounds[..k] == rounds;
    }
  }

  // ---------------------------------------------------------------------------
  // Mutual exclusion, exactly when the two bounds hold
  // ---------------------------------------------------------------------------

  ghost predicate Exclusive(st: World) {
    forall v, w :: st.Active(v) && st.Active(w) && st.workers[v].sub == st.workers[w].sub ==> v == w
  }

  ghost predicate AlwaysExclusive(c: Timing) {
    forall es :: Exclusive(Exec(c, INITIAL, es))
  }

  lemma BoundsExclude(c: Timing, es: seq<Event>)
    requires c.Sane() && c.Safe()
    ensures Exclusive(Exec(c, INITIAL, es))
  {
    ExecInv(c, es);
    var st := Exec(c, INITIAL, es);
    forall v, w | st.Active(v) && st.Active(w) && st.workers[v].sub == st.workers[w].sub
      ensures v == w
    {
      assert Secured(c, st, v) && Secured(c, st, w);
    }
  }

  /** The only worker, with the only lease. */
  function Lone(t: real, expiry: real, phase: Phase): Solo {
    Solo("sub", 0, t, map["sub" := Lease(0, expiry)], phase)
  }

  /** Sleep, send a refresh, and wait in vain until its deadline. */
  lemma SleepThenWait(c: Timing, es: seq<Event>, t: real, expiry: real) returns (es': seq<Event>)
    requires c.Sane()
    requires Exec(c, INITIAL, es) == Lone(t, expiry, Sleeping(t + c.interval)).Alone()
    ensures var due := t + c.interval + c.timeout;
            Exec(c, INITIAL, es') == Lone(due, expiry, Refreshing(due, Waiting)).Alone()
  {
    var r := Round(None, false, c.timeout, 0.0);
    es' := es + WaitEvents(c, r);
    SoloWaitsForAnswer(c, Exec(c, INITIAL, es), Lone(t, expiry, Sleeping(t + c.interval)), r);
    ExecSplit(c, INITIAL, es, WaitEvents(c, r));
  }

  lemma SlowRound(c: Timing, x: Solo, r: Round)
    requires c.Sane() && c.interval < c.ttl
    requires x == Lone(0.0, c.ttl, Sleeping(c.interval)) && r == Round(Some(0.0), true, c.AnswerDelay(), c.heartbeat)
    ensures var t := c.interval + c.AnswerDelay() + c.heartbeat;
            Rounded(c, x, r) == Lone(t, c.interval + c.ttl, Sleeping(t + c.interval))
  {
    var leases := map["sub" := Lease(0, c.ttl)];
    assert leases["sub" := Lease(0, c.interval + c.ttl)] == map["sub" := Lease(0, c.interval + c.ttl)];
  }

  /** One full cycle with the slowest answer and the slowest heartbeat. */
  lemma SlowCycle(c: Timing, es: seq<Event>) returns (es': seq<Event>)
    requires c.Sane() && c.interval < c.ttl
    requires Exec(c, INITIAL, es) == Lone(0.0, c.ttl, Sleeping(c.interval)).Alone()
    ensures var t := c.interval + c.AnswerDelay() + c.heartbeat;
            Exec(c, INITIAL, es') == Lone(t, c.interval + c.ttl, Sleeping(t + c.interval)).Alone()
  {
    var x := Lone(0.0, c.ttl, Sleeping(c.interval));
    var r := Round(Some(0.0), true, c.AnswerDelay(), c.heartbeat);
    es' := es + RoundEvents(c, x, r);
    RoundIsRun(c, Exec(c, INITIAL, es), x, r);
    SlowRound(c, x, r);
    ExecSplit(c, INITIAL, es, RoundEvents(c, x, r));
  }

  lemma StartLone(c: Timing) returns (es: seq<Event>)
    ensures Exec(c, INITIAL, es) == Lone(0.0, c.ttl, Starting(c.startup)).Alone()
  {
    ExecSnoc(c, INITIAL, [], Start(0, "sub", 0));
    es := [] + [Start(0, "sub", 0)];
  }

  /** The refresh loop begins at once, or as late as it may. */
  lemma StartAndBegin(c: Timing, delay: real) returns (es: seq<Event>)
    requires c.Sane() && 0.0 <= delay <= c.startup
    ensures Exec(c, INITIAL, es) == Lone(delay, c.ttl, Sleeping(delay + c.interval)).Alone()
  {
    var a := StartLone(c);
    SoloWaits(c, INITIAL, a, Lone(0.0, c.ttl, Starting(c.startup)), delay);
    SoloActs(c, INITIAL, a + [Tick(delay)], Begin(0), Lone(delay, c.ttl, Starting(c.startup)));
    es := a + [Tick(delay)] + [Begin(0)];
  }

  /** If the lease has run out by the deadline of a refresh, a second worker gets in. */
  lemma SecondWorkerEnters(c: Timing, es: seq<Event>, expiry: real)
    requires var now := Exec(c, INITIAL, es).now;
             expiry <= now && Exec(c, INITIAL, es) == Lone(now, expiry, Refreshing(now, Waiting)).Alone()
    ensures !Exclusive(Exec(c, INITIAL, es + [Start(1, "sub", 1)]))
  {
    ExecSnoc(c, INITIAL, es, Start(1, "sub", 1));
    var st := Exec(c, INITIAL, es + [Start(1, "sub", 1)]);
    assert st.Active(0) && st.Active(1);
  }

  lemma BrokenBoundAdmitsTwo(c: Timing) returns (es: seq<Event>)
    requires c.Sane() && !c.Safe()
    ensures !Exclusive(Exec(c, INITIAL, es))
  {
    if c.startup + c.interval + c.timeout >= c.ttl {
      var a := StartAndBegin(c, c.startup);
      var b := SleepThenWait(c, a, c.startup, c.ttl);
      SecondWorkerEnters(c, b, c.ttl);
      es := b + [Start(1, "sub", 1)];
    } else {
      var a := StartAndBegin(c, 0.0);
      var b := SlowCycle(c, a);
      var d := SleepThenWait(c, b, c.interval + c.AnswerDelay() + c.heartbeat, c.interval + c.ttl);
      SecondWorkerEnters(c, d, c.interval + c.ttl);
      es := d + [Start(1, "sub", 1)];
    }
  }

  /** At most one active worker per subreddit in every run, if and only if both bounds hold. */
  lemma MutualExclusion(c: Timing)
    requires c.Sane()
    ensures c.Safe() <==> AlwaysExclusive(c)
  {
    if c.Safe() {
      forall es: seq<Event> ensures Exclusive(Exec(c, INITIAL, es)) { BoundsExclude(c, es); }
    } else {
      var es := BrokenBoundAdmitsTwo(c);
    }
  }

  /** The constants of the worker, 60 s lease, 30 s interval, 10 s timeout, and the 5 s that its
      Redis client waits for a reply. */
  function SourceTiming(startup: real, heartbeat: real): Timing {
    Timing(60.0, 30.0, 10.0, startup, heartbeat, 5.0)
  }

  /** With these constants exclusion needs a startup under 20 s and heartbeats under 15 s, which a
      heartbeat of one connection (5 s) and one reply (5 s) keeps to. */
  lemma SourceConstants(startup: real, heartbeat: real)
    requires startup >= 0.0 && heartbeat >= 0.0
    ensures AlwaysExclusive(SourceTiming(startup, heartbeat)) <==> startup < 20.0 && heartbeat < 15.0
    ensures startup < 20.0 ==> AlwaysExclusive(SourceTiming(startup, 5.0 + 5.0))
  {
    MutualExclusion(SourceTiming(startup, heartbeat));
    MutualExclusion(SourceTiming(startup, 10.0));
  }

  /** Were replies not limited, or not below the refresh timeout, the second bound would count the timeout twice. */
  lemma SlowReplies(c: Timing)
    requires c.Sane() && c.reply >= c.timeout
    ensures AlwaysExclusive(c) <==>
              c.startup + c.interval + c.timeout < c.ttl && c.heartbeat + c.interval + 2.0 * c.timeout < c.ttl
  {
    MutualExclusion(c);
  }

  // ---------------------------------------------------------------------------
  // The refresh loop itself
  // ---------------------------------------------------------------------------

  /** The fields of StreamWorker that _lock_refresh_loop uses, for one lease. */
  class RefreshLoop {
    const timing: Timing
    const locks: LockManager
    const sub: Subreddit
    const token: Token
    var stopEvent: bool
    var now: real

    constructor (timing: Timing, locks: LockManager, sub: Subreddit, token: Token, now: real)
      ensures this.timing == timing && this.locks == locks && this.sub == sub && this.token == token
      ensures !stopEvent && this.now == now
    {
      this.timing, this.locks, this.sub, this.token, this.now := timing, locks, sub, token, now;
      stopEvent := false;
    }

    /** Asleep, or stopped with the stop event set. */
    ghost function View(): Solo
      reads this, locks
    {
      Solo(sub, token, now, locks.keys, if stopEvent then Stopped else Sleeping(now + timing.interval))
    }

    method RecordLockLoss()
      modifies this`stopEvent
      ensures stopEvent
    {
      stopEvent := true;
    }

    /** One round of the loop, whoever holds the lease. */
    method Round(r: Round)
      requires timing.Sane() && r.Fits(timing) && !stopEvent
      modifies this, locks
      ensures View() == Rounded(timing, old(View()), r)
      ensures !stopEvent <==>
                && r.answered && r.served.Some? && sub in old(locks.keys) && old(locks.keys)[sub].token == token
                && old(now) + timing.interval + r.served.value < old(locks.keys)[sub].expiry
    {
      now := now + timing.interval;
      var success := false;
      if r.served.Some? {
        success := locks.RefreshLock(sub, token, now + r.served.value, timing.ttl);
      }
      now := now + r.spent;
      if !r.answered || !success {
        RecordLockLoss();
      } else {
        now := now + r.beat;
      }
    }

    /** _lock_refresh_loop over any finite list of rounds (the end of the list is a cancellation). It stops at the
        first refresh that is not confirmed. From a lease of its own that outlasts the first refresh, and under the
        two bounds, that is the first unanswered one, and it still owns the unexpired lease then. */
    method Run(rounds: seq<Round>)
      requires timing.Sane() && !stopEvent && AllFit(timing, rounds)
      modifies this, locks
      ensures View() == AfterRounds(timing, old(View()), rounds)
      ensures timing.Safe() && Lasts(timing, old(View())) ==>
                (stopEvent <==> !AllAnswered(rounds)) && Owns(locks.keys, sub, token, now)
    {
      ghost var x := View();
      if timing.Safe() && Lasts(timing, x) { OnlySilenceStops(timing, x, rounds); }
      for i := 0 to |rounds|
        invariant !stopEvent && View() == AfterRounds(timing, x, rounds[..i])
      {
        assert rounds[..i + 1][..i] == rounds[..i];
        Round(rounds[i]);
        if stopEvent {
          StaysStopped(timing, x, rounds, i + 1);
          return;
        }
      }
      assert rounds[..|rounds|] == rounds;
    }
  }
}
