/** Runs of `HappyConnOpener.Worker` that show what the invariant allows does
  * happen, and that a forgotten job stays forgotten. */
module HappyRuns {
  import opened Wrappers
  import opened ResolvedPeers
  import opened HappyModel
  import opened HappySpec
  import opened HappyConnOpener
  import opened HappyProperties

  // --- A forgotten job stays forgotten ---

  /** No run moves a forgotten job, unless it asks the job to stop or gives up its request. */
  method ForgottenForever(w: Worker, j: nat, events: seq<Event>)
    requires w.Inv() && j in w.jobs && !w.jobs[j].life.ended && w.jobs[j].setup.fwd in w.fwds && !Moves(w, j)
    requires !Disturbs(events, j, w.jobs[j].setup.fwd)
    modifies w
    ensures w.Inv() && j in w.jobs && w.jobs[j] == old(w.jobs[j])
    ensures w.jobs[j].setup.fwd in w.fwds && !Moves(w, j)
  {
    NoJobForgotten(w, j);
    w.Settle(j);
    w.Run(events);
    w.SettledAre(j);
    NoJobForgotten(w, j);
  }

  // --- A job that an enforcer has a call or a wake-up for is moved ---

  /** The call of the enforcer, once it fires, changes the job that expects it. */
  method CallMoves(w: Worker, j: nat, pconnPrime: bool, pconnSpare: bool)
    requires w.Inv() && j in w.jobs && w.jobs[j].wait.callback.Some?
    modifies w
    ensures w.Inv() && j in w.jobs && w.jobs[j] != old(w.jobs[j]) && w.jobs[j].wait.callback.None?
  {
    hide Worker.Inv;
    CallScheduled(w, j);
    w.Fire(w.jobs[j].wait.callback.value, pconnPrime, pconnSpare);
  }

  lemma CallScheduled(w: Worker, j: nat)
    requires w.Inv() && j in w.jobs && w.jobs[j].wait.callback.Some?
    ensures w.jobs[j].wait.callback.value in w.calls && w.calls[w.jobs[j].wait.callback.value].job == j
  {
    hide QueueOK, LinksOK, JobsOK, LimitKept, LimitReached, Holders, SettledOK, InTurn, Numbered;
  }

  /** A call for the job is scheduled. */
  predicate Called(w: Worker, kind: Kind, j: nat)
    reads w
  {
    && j in w.jobs && w.jobs[j].wait.callback.Some? && w.jobs[j].wait.callback.value in w.calls
    && w.calls[w.jobs[j].wait.callback.value] == Call(j, kind)
  }

  /** If time passes and wake-ups happen, a job on a list is called, unless it waits
    * for an allowance and the limit is reached before its turn. */
  method TurnComes(w: Worker, kind: Kind, j: nat)
    requires w.Inv() && j in w.Queue(kind)
    modifies w
    ensures w.Inv() && w.jobs.Keys == old(w.jobs.Keys)
    ensures || (Called(w, kind, j) && j !in w.Queue(kind))
            || (kind.SpareAllowance? && j in w.Queue(kind) && LimitReached(w.cfg, w.concurrencyLevel))
  {
    hide Worker.Inv, Called, LimitReached, Progressed;
    while j in w.Queue(kind) && (kind.PrimeChance? || !LimitReached(w.cfg, w.concurrencyLevel))
      invariant w.Inv() && w.jobs.Keys == old(w.jobs.Keys)
      invariant j in w.Queue(kind) || Called(w, kind, j)
      decreases |w.Queue(kind)|
    {
      WakeUp(w, kind, j);
    }
  }

  /** The pause of the first job on the list is over, and the enforcer wakes up. */
  method WakeUp(w: Worker, kind: Kind, j: nat)
    requires w.Inv() && j in w.Queue(kind)
    requires kind.PrimeChance? || !LimitReached(w.cfg, w.concurrencyLevel)
    modifies w
    ensures w.Inv() && w.jobs.Keys == old(w.jobs.Keys) && |w.Queue(kind)| < |old(w.Queue(kind))|
    ensures j in w.Queue(kind) || Called(w, kind, j)
  {
    hide Worker.Inv, Progressed, LimitReached, Pausing;
    Awake(w, kind, j);
    var start := if kind.PrimeChance? then w.jobs[w.Queue(kind)[0]].primeStart else w.lastAllowanceStart;
    var msec := if kind.PrimeChance? then w.cfg.connectTimeout else w.cfg.connectGap;
    var later := Late(w.cfg, start, w.now, msec);
    w.Tick(later, w.curtime);
    ghost var q, calls, next := w.Queue(kind), w.calls, w.nextCall;
    var n := w.NoteWaitOver(kind);
    if j !in w.Queue(kind) {
      CalledNow(w, kind, j, q, n, calls, next);
    }
    Shorter(q, n, w.Queue(kind), kind, calls, w.calls, next, w.nextCall);
  }

  lemma Awake(w: Worker, kind: Kind, j: nat)
    requires w.Inv() && j in w.Queue(kind) && (kind.PrimeChance? || !LimitReached(w.cfg, w.concurrencyLevel))
    ensures w.Queue(kind) != [] && w.Queue(kind)[0] in w.jobs && w.Giver(kind).waitEnd > 0.0 && w.now >= 0.0
  {
    hide LinksOK, JobsOK, CallsOK, LimitKept, LimitReached, Holders, SettledOK, InTurn, Numbered;
    assert w.Queue(kind)[0] in w.Queue(kind);
  }

  /** A time at which a pause is over. */
  function Late(cfg: Config, start: real, now: real, msec: int): (t: real)
    ensures t >= now && !Pausing(cfg, start, t, msec)
  {
    var end := start + Pause(cfg, msec);
    if end > now then end else now
  }

  lemma Shorter(q: seq<nat>, n: nat, rest: seq<nat>, kind: Kind, calls: map<nat, Call>, calls': map<nat, Call>,
                next: nat, next': nat)
    requires Progressed(q, n, rest, kind, calls, calls', next, next') && n > 0
    ensures |rest| < |q|
  {
    hide CalledInOrder, Extends;
  }

  lemma CalledNow(w: Worker, kind: Kind, j: nat, q: seq<nat>, n: nat, calls: map<nat, Call>, next: nat)
    requires w.Inv() && Progressed(q, n, w.Queue(kind), kind, calls, w.calls, next, w.nextCall)
    requires j in q && j !in w.Queue(kind)
    ensures Called(w, kind, j)
  {
    hide QueueOK, LinksOK, JobsOK, LimitKept, LimitReached, Holders, SettledOK, InTurn, Numbered, Extends;
    assert q == q[..n] + q[n..];
    var k :| 0 <= k < n && q[..n][k] == j;
    assert w.calls[next + k] == Call(j, kind);
  }

  // --- Steps of the runs below ---

  const P4 := Path(1, true)
  const P6 := Path(1, false)

  /** The first path is the only one so far: a prime attempt starts. */
  lemma OnePath(w: Work, m: Moment)
    requires w.job == Begun(NewJob(w.job.setup.fwd, w.fwd)) && !RanOut(w.job, m.cfg, m.curtime)
    requires w.fwd.dests == Dests([Slot(P4, true)], false) && !m.pconnPrime
    ensures var r := Checked(w, m);
            && r.fwd == w.fwd.(dests := Dests([Slot(P4, false)], false))
            && r.job == w.job.(currentPeer := Some(P4), primeStart := m.now, prime := Connecting(0),
                               wait := ChanceWait(r.fwd.dests, P4, m.now, m.now, m.cfg))
            && Concluded(r, r, m.cfg, m.curtime)
  {
    hide RanOut, ChanceWait;
    FirstAvailableIs(w.fwd.dests.slots, 0);
    CheckedAtStart(w, m);
    var r := ToNewPeer(w, m);
    assert r.fwd.dests.slots == [Slot(P4, false)];
    FirstNotPrimeIs(r.fwd.dests.slots, P4, 1);
    SpareNotWanted(r, m);
  }

  /** What such a job waits for. */
  lemma OnePathWait(cfg: Config, now: real)
    requires cfg.connectTimeout <= 0 || cfg.connectLimit == 0
    ensures ChanceWait(Dests([Slot(P4, false)], false), P4, now, now, cfg) ==
            if cfg.connectLimit == 0 then NoWait.(forPrimesToFail := true) else NoWait
  {
    FirstNotPrimeIs([Slot(P4, false)], P4, 1);
  }

  /** The attempt fails while nothing else is known: the job idles. */
  lemma OnePathFails(w: Work, m: Moment)
    requires w.job.client == Client(true, false) && !w.job.life.stopped && w.job.prime == Connecting(0)
    requires w.job.spare.Idle?
    requires w.job.currentPeer == Some(P4) && w.fwd.dests == Dests([Slot(P4, false)], false)
    requires w.job.wait == NoWait || w.job.wait == NoWait.(forPrimesToFail := true)
    requires !RanOut(FinishPrime(w.job), m.cfg, m.curtime)
    ensures var r := PrimeFailed(w);
            && r.job == Failed(FinishPrime(w.job), 0) && r.fwd == w.fwd.(handled := w.fwd.handled + {0})
            && Checked(r, m) == r && !DoneAll(r.job, r.fwd.dests, m.cfg, m.curtime)
  {
    var r := PrimeFailed(w);
    FirstNotPrimeIs([Slot(P4, false)], P4, 1);
    FirstAvailableIs([Slot(P4, false)], 1);
    assert r.job == Failed(FinishPrime(w.job), 0);
    SpareNotWanted(r, m);
    CheckedIdle(r, m);
  }

  /** The job has tried the only path that is known so far, and idles. */
  predicate Tried(w: Work, cfg: Config, curtime: int) {
    && w.job.client == Client(true, false) && w.job.life == Life(true, false, false)
    && InFlight(w.job) == 0 && w.job.currentPeer == Some(P4) && !RanOut(w.job, cfg, curtime)
    && w.job.wait == (if cfg.connectLimit == 0 then NoWait.(forPrimesToFail := true) else NoWait)
    && w.job.permit == Permit(false, false, false)
    && w.fwd.dests == Dests([Slot(P4, false)], false)
    && w.fwd.stage == Stage(true, false, false) && w.fwd.news == News(false, true)
  }

  /** A request gets a path, and a job starts for it. */
  method OpenOnePath(w: Worker, f: nat) returns (j: nat)
    requires w.Inv() && f !in w.fwds
    modifies w`jobs, w`nextJob, w`fwds
    ensures w.Inv() && j == old(w.nextJob) && j in w.jobs && w.jobs[j].setup.fwd == f && f in w.fwds
    ensures w.jobs == old(w.jobs)[j := NewJob(f, OnePathKnown(w.curtime))] && w.nextJob == j + 1
    ensures w.fwds == old(w.fwds)[f := Engage(OnePathKnown(w.curtime), j)]
  {
    hide w.Inv;
    j := w.nextJob;
    w.NewRequest(f, false);
    FirstAvailableIs([Slot(P4, true)], 0);
    w.NoteDestination(f, P4);
    assert [] + [Slot(P4, true)] == [Slot(P4, true)];
  }

  function OnePathKnown(curtime: int): Fwd {
    NewFwd(false, curtime).(dests := Dests([Slot(P4, true)], false), news := News(false, true))
  }

  /** The attempt to connect starts. */
  predicate Trying(w: Work, cfg: Config, curtime: int) {
    && w.job.client == Client(true, false) && w.job.life == Life(true, false, false)
    && w.job.prime == Connecting(0) && w.job.spare.Idle? && w.job.currentPeer == Some(P4)
    && !RanOut(FinishPrime(w.job), cfg, curtime)
    && w.job.wait == (if cfg.connectLimit == 0 then NoWait.(forPrimesToFail := true) else NoWait)
    && w.job.permit == Permit(false, false, false)
    && w.fwd.dests == Dests([Slot(P4, false)], false)
    && w.fwd.stage == Stage(true, false, false) && w.fwd.news == News(false, true)
  }

  lemma StartsTrying(f: nat, j: nat, m: Moment, out: Work)
    requires m.cfg.connectTimeout <= 0 || m.cfg.connectLimit == 0
    requires m.cfg.forwardMaxTries > 1 && m.cfg.forwardTimeout > 0 && !m.pconnPrime
    requires var w := Work(NewJob(f, OnePathKnown(m.curtime)), Engage(OnePathKnown(m.curtime), j));
             Concluded(Checked(Started(w), m), out, m.cfg, m.curtime)
    ensures Trying(out, m.cfg, m.curtime)
  {
    hide Checked, ChanceWait;
    var w := Started(Work(NewJob(f, OnePathKnown(m.curtime)), Engage(OnePathKnown(m.curtime), j)));
    OnePath(w, m);
    OnePathWait(m.cfg, m.now);
  }

  lemma FailsToConnect(w: Work, m: Moment, out: Work)
    requires Trying(w, m.cfg, m.curtime) && Concluded(Checked(PrimeFailed(w), m), out, m.cfg, m.curtime)
    ensures Tried(out, m.cfg, m.curtime)
  {
    hide Checked;
    OnePathFails(w, m);
  }

  /** A request gets a path, and the attempt to connect there fails. */
  method TryOnePath(w: Worker, f: nat) returns (j: nat)
    requires w.Inv() && f !in w.fwds && (w.cfg.connectTimeout <= 0 || w.cfg.connectLimit == 0)
    requires w.cfg.forwardMaxTries > 1 && w.cfg.forwardTimeout > 0
    modifies w`jobs, w`nextJob, w`fwds, w`calls, w`nextCall, w`primeGiver, w`spareGiver, w`lastAllowanceStart,
             w`concurrencyLevel
    ensures w.Inv() && j == old(w.nextJob) && j in w.jobs && w.jobs[j].setup.fwd == f && f in w.fwds
    ensures Tried(w.At(j), w.cfg, w.curtime)
  {
    hide w.Inv, OthersSame, Checked, w.SpareReady, Concluded, PrimeFailed, Started, RanOut, OnePathKnown;
    j := OpenOnePath(w, f);
    ghost var m := w.Around(false, false);
    w.StartJob(j, false, false);
    StartsTrying(f, j, m, w.At(j));
    ghost var trying := w.At(j);
    ghost var ready := w.NotePrimeConnectDone(j, false, false, false);
    FailsToConnect(trying, m.(spareReady := ready), w.At(j));
  }

  // --- Concurrent spares are prohibited ---

  const SERIAL := Config(250, 250, 0, 1, 25, 240)

  /** The only prime has failed when a path to another peer comes: the next look at it fails a check. */
  method FailedCheckRun() returns (w: Worker)
    ensures fresh(w) && w.Inv() && 0 in w.jobs && !w.jobs[0].life.ended && 0 in w.fwds && w.jobs[0].setup.fwd == 0
    ensures w.fwds[0].news.notified && ChecksFail(w.jobs[0], w.fwds[0].dests, w.cfg, w.curtime)
  {
    hide w.Inv, RanOut, ChecksFail;
    w := new Worker(SERIAL, 0.0, 0);
    var j := TryOnePath(w, 0);
    FirstAvailableIs(w.fwds[0].dests.slots, 1);
    NextPeerFailsCheck(w.jobs[0], w.fwds[0].dests, w.cfg, w.curtime, Path(2, true));
    w.NoteDestination(0, Path(2, true));
  }

  /** The only prime has failed when a spare path comes, as the last one: the job is forgotten. */
  method StalledRun() returns (w: Worker)
    ensures fresh(w) && w.Inv() && 0 in w.jobs && !w.jobs[0].life.ended && 0 in w.fwds && w.jobs[0].setup.fwd == 0
    ensures Stalled(w.jobs[0], w.fwds[0].dests, w.cfg, w.curtime) && !Moves(w, 0)
  {
    hide w.Inv, RanOut, Stalled, w.SpareReady, Checked, Concluded, OthersSame, ChecksFail, FinalAnswers;
    w := new Worker(SERIAL, 0.0, 0);
    var j := TryOnePath(w, 0);
    FirstAvailableIs(w.fwds[0].dests.slots, 1);
    OwnSpareStalls(w.jobs[0], w.fwds[0].dests, w.cfg, w.curtime, P6);
    w.NoteDestination(0, P6);
    w.Unsettled(0);
    w.NoteCandidatesChange(0, false, false);
    w.NoteDestinationsEnd(0);
    w.Unsettled(0);
    w.NoteCandidatesChange(0, false, false);
    NoJobForgotten(w, 0);
  }

  // --- An allowance is lost ---

  const FAST := Config(0, 0, 1, 1, 25, 240)

  /** Both paths are known: a prime attempt starts, and an idle persistent
    * connection serves as the allowed spare. */
  lemma TwoPaths(w: Work, m: Moment, out: Work)
    requires w.job == Begun(NewJob(w.job.setup.fwd, NewFwd(false, m.curtime))) && m.cfg == FAST
    requires w.fwd.dests == Dests([Slot(P4, true), Slot(P6, true)], false)
    requires !m.pconnPrime && m.pconnSpare && m.spareReady
    requires Concluded(Checked(w, m), out, m.cfg, m.curtime)
    ensures out.job.life.ended && out.job.permit.keptAllowance
  {
    hide RanOut, ChanceWait, SpareOn, LastState, PathsBack;
    FirstAvailableIs(w.fwd.dests.slots, 0);
    AmpleTime(w.job, m.curtime);
    CheckedAtStart(w, m);
    var r := ToNewPeer(w, m);
    assert r.fwd.dests.slots == [Slot(P4, false), Slot(P6, true)];
    FirstNotPrimeIs(r.fwd.dests.slots, P4, 1);
    NoChance(r.fwd.dests, m.now);
    SpareOnPermit(r.(job := WithGot(r.job, true)), 1, true);
    LastPermit(Checked(w, m).job);
  }

  lemma AmpleTime(job: Job, curtime: int)
    requires job.nTries == 0 && !job.ranOut && job.setup.fwdStart == curtime
    ensures !RanOut(job, FAST, curtime)
  {
  }

  /** Without a pause, the prime gets no chance of its own. */
  lemma NoChance(d: Dests, now: real)
    requires HaveSpare(d, P4)
    ensures ChanceWait(d, P4, now, now, FAST) == NoWait
  {
  }

  /** All jobs are over, and yet the level is not back at zero. */
  method KeptAllowanceRun() returns (w: Worker)
    ensures fresh(w) && w.Inv() && w.cfg == FAST && w.jobs.Keys == {0} && w.fwds.Keys == {0} && w.nextJob == 1
    ensures w.jobs[0].life.ended && w.jobs[0].permit.keptAllowance && w.concurrencyLevel == 1
  {
    hide w.Inv, Concluded, Checked, Started, w.SpareReady;
    w := new Worker(FAST, 0.0, 0);
    w.ReadyAtStart();
    OpenTwoPaths(w);
    ghost var started, m := Started(w.At(0)), w.Around(false, true);
    StartTwoPaths(w.At(0), w.curtime);
    w.StartJob(0, false, true);
    TwoPaths(started, m, w.At(0));
    OneKeeper(w);
  }

  /** A request gets both paths before its job starts. */
  method OpenTwoPaths(w: Worker)
    requires w.Inv() && w.fwds == map[] && w.jobs == map[] && w.nextJob == 0
    modifies w`jobs, w`nextJob, w`fwds
    ensures w.Inv() && w.jobs.Keys == {0} && w.fwds.Keys == {0} && w.nextJob == 1
    ensures w.jobs[0] == NewJob(0, NewFwd(false, w.curtime))
    ensures w.fwds[0].dests == Dests([Slot(P4, true), Slot(P6, true)], false)
  {
    hide w.Inv;
    var j := OpenOnePath(w, 0);
    w.NoteDestination(0, P6);
    assert [Slot(P4, true)] + [Slot(P6, true)] == [Slot(P4, true), Slot(P6, true)];
  }

  lemma StartTwoPaths(w: Work, curtime: int)
    requires w.job == NewJob(0, NewFwd(false, curtime)) && w.fwd.dests == Dests([Slot(P4, true), Slot(P6, true)], false)
    ensures Started(w).job == Begun(NewJob(0, NewFwd(false, curtime))) && Started(w).fwd.dests == w.fwd.dests
    ensures Started(w).job.setup.fwd == 0 && w.job.setup.fwd == 0 && !w.job.life.ended && !w.job.life.started
  {
  }

  lemma OneKeeper(w: Worker)
    requires w.Inv() && w.jobs.Keys == {0} && w.jobs[0].life.ended && w.jobs[0].permit.keptAllowance
    ensures w.concurrencyLevel == 1
  {
    hide w.Inv;
    AllowancesReturned(w);
    assert Keepers(w.jobs) == {0};
  }

  // --- A job waits for the lost allowance ---

  /** The job has tried its prime path and knows a spare one. */
  predicate SpareKnown(w: Work, cfg: Config, curtime: int) {
    && w.job.client == Client(true, false) && w.job.life == Life(true, false, false)
    && InFlight(w.job) == 0 && w.job.currentPeer == Some(P4) && !RanOut(w.job, cfg, curtime)
    && !w.job.permit.ignoreSpareRestrictions
    && w.fwd.dests.slots == [Slot(P4, false), Slot(P6, true)]
  }

  lemma SpareFound(d: Dests)
    requires d.slots == [Slot(P4, false), Slot(P6, true)]
    ensures HaveSpare(d, P4) && !Empty(d) && FindPrime(d, P4).pos == |d.slots|
    ensures !DoneWithPeer(d, P4) && !DoneWithSpares(d, P4)
  {
    FirstAvailableIs(d.slots, 1);
    FirstNotPrimeIs(d.slots, P4, 1);
  }

  /** Without an allowance to be had, the job joins the list, and stays there. */
  lemma JoinsList(w: Work, m: Moment, out: Work)
    requires SpareKnown(w, m.cfg, m.curtime) && !m.spareReady
    requires w.job.wait == NoWait || w.job.wait == Managed(SpareAllowance)
    requires Concluded(Checked(w, m), out, m.cfg, m.curtime)
    ensures out == w.(job := w.job.(wait := Managed(SpareAllowance)))
  {
    hide RanOut, HaveSpare, Empty, FindPrime, DoneWithPeer, DoneWithSpares, Checked;
    SpareFound(w.fwd.dests);
    CheckedIdle(w, m);
    QueuedGoesOn(w.job, m.cfg, m.curtime);
  }

  /** The limit is one, and a job that ended keeps that one. */
  lemma NoAllowanceLeft(w: Worker)
    requires w.Inv() && w.cfg == FAST && 0 in w.settled && w.settled[0].life.ended && w.settled[0].permit.keptAllowance
    ensures LimitReached(w.cfg, |Kept(w.jobs)|) && !w.SpareReady() && w.spareGiver.waitEnd <= 0.0
  {
    hide w.Inv, LimitReached;
    w.SettledAre(0);
    AllowancesKept(w);
    assert 0 in Keepers(w.jobs);
    assert Kept(w.jobs) != {};
    AtTheLimit(|Kept(w.jobs)|);
    LostAllowances(w);
    w.NoGap();
  }

  lemma AtTheLimit(level: int)
    requires level > 0
    ensures LimitReached(FAST, level)
  {
  }

  /** The worker whose only allowance is lost, and a job in it. */
  ghost predicate AfterTheLoss(w: Worker, j: nat, f: nat)
    reads w
  {
    && w.Inv() && w.cfg == FAST && 0 in w.settled && w.settled[0].life.ended && w.settled[0].permit.keptAllowance
    && j in w.jobs && w.jobs[j].setup.fwd == f && f in w.fwds
  }

  /** The job learns that there is a spare path, and joins the list. */
  method QueueForSpare(w: Worker, j: nat, f: nat)
    requires AfterTheLoss(w, j, f) && Tried(w.At(j), w.cfg, w.curtime)
    modifies w`jobs, w`nextJob, w`fwds, w`calls, w`nextCall, w`primeGiver, w`spareGiver, w`lastAllowanceStart,
             w`concurrencyLevel
    ensures AfterTheLoss(w, j, f) && SpareKnown(w.At(j), w.cfg, w.curtime)
    ensures w.jobs[j].wait == Managed(SpareAllowance) && !w.fwds[f].dests.finalized
    ensures w.fwds[f].stage == Stage(true, false, false) && w.fwds[f].news == News(false, true)
  {
    hide w.Inv, RanOut, w.SpareReady, Checked, Concluded, OthersSame, ChecksFail, Stalled, FinalAnswers, LimitReached,
         Kept;
    w.NoteDestination(f, P6);
    assert [Slot(P4, false)] + [Slot(P6, true)] == [Slot(P4, false), Slot(P6, true)];
    w.Unsettled(j);
    NoAllowanceLeft(w);
    ghost var informed, m := Informed(w.At(j)), w.Around(false, false);
    QueuedGoesOn(informed.job, w.cfg, w.curtime);
    w.NoteCandidatesChange(j, false, false);
    JoinsList(informed, m, w.At(j));
  }

  /** The job learns that there will be no more paths, and stays on the list. */
  method StayQueued(w: Worker, j: nat, f: nat)
    requires AfterTheLoss(w, j, f) && SpareKnown(w.At(j), w.cfg, w.curtime)
    requires w.jobs[j].wait == Managed(SpareAllowance) && !w.fwds[f].dests.finalized
    requires w.fwds[f].stage == Stage(true, false, false) && w.fwds[f].news == News(false, true)
    modifies w`jobs, w`nextJob, w`fwds, w`calls, w`nextCall, w`primeGiver, w`spareGiver, w`lastAllowanceStart,
             w`concurrencyLevel
    ensures AfterTheLoss(w, j, f) && Dormant(w.jobs[j], w.fwds[f]) && w.jobs[j].wait == Managed(SpareAllowance)
  {
    hide w.Inv, RanOut, w.SpareReady, Checked, Concluded, OthersSame, ChecksFail, Stalled, FinalAnswers, LimitReached,
         Kept;
    w.NoteDestinationsEnd(f);
    w.Unsettled(j);
    NoAllowanceLeft(w);
    ghost var informed, m := Informed(w.At(j)), w.Around(false, false);
    w.NoteCandidatesChange(j, false, false);
    JoinsList(informed, m, w.At(j));
  }

  /** A job waits for an allowance that nobody will return: it is forgotten. */
  method StarvedRun() returns (w: Worker)
    ensures fresh(w) && w.Inv() && 1 in w.jobs && !w.jobs[1].life.ended && 1 in w.fwds && w.jobs[1].setup.fwd == 1
    ensures Starves(w, 1) && !Moves(w, 1)
  {
    hide w.Inv, RanOut, LimitReached, Kept, Tried, SpareKnown;
    w := KeptAllowanceRun();
    w.Settle(0);
    var j := TryOnePath(w, 1);
    QueueForSpare(w, 1, 1);
    StayQueued(w, 1, 1);
    NoAllowanceLeft(w);
    NoJobForgotten(w, 1);
  }
}
