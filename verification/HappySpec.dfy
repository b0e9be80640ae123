/** What the calls of a HappyConnOpener job do, as functions of the state they
  * find: the specification that the methods of `HappyConnOpener.Worker` meet. */
module HappySpec {
  import opened Wrappers
  import opened ResolvedPeers
  import opened HappyModel

  /** A job and the request it works for. */
  datatype Work = Work(job: Job, fwd: Fwd)

  /** What a call finds beside them: settings, time, whether a spare may start at
    * once, and whether there are idle persistent connections. */
  datatype Moment = Moment(
    cfg: Config, now: real, curtime: int, spareReady: bool, pconnPrime: bool, pconnSpare: bool)

  // --- Attempts ---

  /** Whether connecting to the given path reuses an idle persistent connection. */
  predicate Reuses(w: Work, pos: nat, pconn: bool)
    requires pos < |w.fwd.dests.slots|
  {
    pconn && CanReuse(w.job, w.fwd.dests.slots[pos].path)
  }

  function PrimeOn(w: Work, pos: nat, pconn: bool): Work
    requires pos < |w.fwd.dests.slots|
  {
    Work(ConnectPrime(w.job, pos, Reuses(w, pos, pconn)), ConnectFwd(w.fwd, pos, Reuses(w, pos, pconn)))
  }

  function SpareOn(w: Work, pos: nat, pconn: bool): Work
    requires pos < |w.fwd.dests.slots|
  {
    Work(ConnectSpare(w.job, pos, Reuses(w, pos, pconn)), ConnectFwd(w.fwd, pos, Reuses(w, pos, pconn)))
  }

  // --- checkForNewConnection() ---

  /** What a job whose prime attempt has just started waits for. */
  function ChanceWait(d: Dests, cur: Path, primeStart: real, now: real, cfg: Config): SpareWait {
    if DoneWithSpares(d, cur) then NoWait.(forNewPeer := true)
    else if cfg.connectLimit == 0 then NoWait.(forPrimesToFail := true)
    else if Pausing(cfg, primeStart, now, cfg.connectTimeout) then Managed(PrimeChance)
    else NoWait
  }

  /** The first available path decides the peer. */
  function ToNewPeer(w: Work, m: Moment): Work
    requires !Empty(w.fwd.dests)
  {
    var pos := FirstAvailable(w.fwd.dests.slots);
    var path := w.fwd.dests.slots[pos].path;
    var r := PrimeOn(Work(w.job.(currentPeer := Some(path), primeStart := m.now), w.fwd), pos, m.pconnPrime);
    if r.job.client.hasCallback then r.(job := r.job.(wait := ChanceWait(r.fwd.dests, path, m.now, m.now, m.cfg))) else r
  }

  function PrimeOpened(w: Work, m: Moment): Work {
    if Empty(w.fwd.dests) then w
    else if w.job.currentPeer.None? then ToNewPeer(w, m)
    else
      var f := FindPrime(w.fwd.dests, w.job.currentPeer.value);
      if f.pos < |w.fwd.dests.slots| then PrimeOn(w, f.pos, m.pconnPrime) else w
  }

  /** Whether the job may look for a spare, and there is one. */
  predicate SpareWanted(w: Work) {
    && w.job.spare.Idle? && w.job.client.hasCallback && !Waiting(w.job.wait) && w.job.currentPeer.Some?
    && HaveSpare(w.fwd.dests, w.job.currentPeer.value)
  }

  function SpareOpened(w: Work, m: Moment): Work {
    if !SpareWanted(w) then w
    else if !w.job.permit.ignoreSpareRestrictions && !m.spareReady then w.(job := w.job.(wait := Managed(SpareAllowance)))
    else
      SpareOn(w.(job := WithGot(w.job, !w.job.permit.ignoreSpareRestrictions)),
              FindSpare(w.fwd.dests, w.job.currentPeer.value).pos, m.pconnSpare)
  }

  function Opened(w: Work, m: Moment): Work {
    SpareOpened(if w.job.prime.Idle? then PrimeOpened(w, m) else w, m)
  }

  /** Whether there is nothing left to do with the current peer. */
  predicate PeerOver(w: Work) {
    w.job.currentPeer.Some? && InFlight(w.job) == 0 && DoneWithPeer(w.fwd.dests, w.job.currentPeer.value)
  }

  /** Whether the job waits for spares that are not coming. */
  predicate SparesOver(w: Work) {
    && w.job.currentPeer.Some? && Waiting(w.job.wait) && !w.job.wait.forNewPeer
    && DoneWithSpares(w.fwd.dests, w.job.currentPeer.value)
  }

  /** Forgets a peer that is over, and a wait for spares that are not coming. */
  function Refreshed(w: Work): Work {
    if PeerOver(w) then w.(job := WithPeer(ClearWait(w.job), None, w.job.primeStart, false))
    else if SparesOver(w) then w.(job := w.job.(wait := NoWait.(forNewPeer := true)))
    else w
  }

  /** All of checkForNewConnection(). A failed check stops the job. */
  function Checked(w: Work, m: Moment): Work {
    if w.job.life.stopped || !w.job.client.hasCallback || w.job.client.canceled then w
    else if DoneAll(w.job, w.fwd.dests, m.cfg, m.curtime) || RanOut(w.job, m.cfg, m.curtime)
    then w.(job := w.job.(ranOut := RanOut(w.job, m.cfg, m.curtime)))
    else if ChecksFail(w.job, w.fwd.dests, m.cfg, m.curtime) then w.(job := Halted(w.job))
    else Opened(Refreshed(w), m)
  }

  /** A check makes the job wait, if at all, for a call that is not scheduled yet. */
  lemma CheckedCallsNobody(w: Work, m: Moment)
    requires w.job.wait.callback.None?
    ensures Checked(w, m).job.wait.callback.None?
  {
    hide RanOut, DoneAll, ChecksFail, Refreshed, PrimeOpened, SpareOpened;
    var r := Refreshed(w);
    RefreshedCallsNobody(w);
    PrimeCallsNobody(r, m);
    SpareCallsNobody(if r.job.prime.Idle? then PrimeOpened(r, m) else r, m);
  }

  lemma RefreshedCallsNobody(w: Work)
    requires w.job.wait.callback.None?
    ensures Refreshed(w).job.wait.callback.None?
  {
    hide PeerOver, SparesOver;
  }

  lemma PrimeCallsNobody(w: Work, m: Moment)
    requires w.job.wait.callback.None?
    ensures PrimeOpened(w, m).job.wait.callback.None?
  {
    hide Empty, FindPrime, FirstAvailable, Reuses, ConnectFwd, DoneWithSpares, Pausing;
  }

  lemma SpareCallsNobody(w: Work, m: Moment)
    requires w.job.wait.callback.None?
    ensures SpareOpened(w, m).job.wait.callback.None?
  {
    hide SpareWanted, FindSpare, Reuses, ConnectFwd;
    if SpareWanted(w) { SpareIsThere(w); }
  }

  lemma SpareIsThere(w: Work)
    requires SpareWanted(w)
    ensures w.job.currentPeer.Some? && HaveSpare(w.fwd.dests, w.job.currentPeer.value)
  {
  }

  // --- The end of a call ---

  /** The path of an unfinished attempt is available again. */
  function Returned(d: Dests, a: Attempt): Dests {
    if a.Connecting? && a.pos < |d.slots| then Reinstate(d, a.pos) else d
  }

  function PathsBack(job: Job, d: Dests): Dests { Returned(Returned(d, job.prime), job.spare) }

  // What the steps of a job that ends do: it answers, stops waiting, gives up
  // its attempts with the allowance of the spare one, and is over.
  function Replied(job: Job): Job {
    job.(client := job.client.(hasCallback := job.client.hasCallback && job.client.canceled), answers := FinalAnswers(job))
  }

  function PrimeDropped(job: Job): Job { job.(prime := Idle) }
  function SpareDropped(job: Job): Job { if job.spare.Connecting? then WithGot(job, false).(spare := Idle) else job }
  function LastState(job: Job): Job { Over(SpareDropped(PrimeDropped(ClearWait(Replied(job))))) }

  /** The call that got as far as `w` is over: the job ends if it is done. Only
    * the cached verdict about time and attempts of a job that ends is left open. */
  predicate Concluded(w: Work, out: Work, cfg: Config, curtime: int) {
    if DoneAll(w.job, w.fwd.dests, cfg, curtime)
    then
      && out.job == LastState(w.job).(ranOut := out.job.ranOut)
      && out.fwd == w.fwd.(dests := PathsBack(w.job, w.fwd.dests))
    else out == w
  }

  // --- Calls ---

  function Started(w: Work): Work { Work(Begun(w.job), WithNotified(w.fwd, false)) }

  function Informed(w: Work): Work { w.(fwd := WithNotified(w.fwd, false)) }

  /** The allowance is used for a spare attempt or, if it comes too late, returned. */
  function Allowed(w: Work, m: Moment): Work
    requires w.job.currentPeer.Some? && HaveSpare(w.fwd.dests, w.job.currentPeer.value)
  {
    if RanOut(w.job, m.cfg, m.curtime) then w.(job := ClearWait(w.job).(ranOut := true))
    else
      SpareOn(Work(WithGot(ClearWait(w.job), true), w.fwd),
              FindSpare(w.fwd.dests, w.job.currentPeer.value).pos, m.pconnSpare)
  }

  lemma AllowedCallsNobody(w: Work, m: Moment)
    requires w.job.currentPeer.Some? && HaveSpare(w.fwd.dests, w.job.currentPeer.value)
    ensures Allowed(w, m).job.wait.callback.None?
  {
    hide RanOut, FindSpare, Reuses;
  }

  lemma ConcludedCallsNobody(w: Work, out: Work, cfg: Config, curtime: int)
    requires Concluded(w, out, cfg, curtime) && w.job.wait.callback.None?
    ensures out.job.wait.callback.None?
  {
    hide DoneAll, PathsBack;
  }

  /** A failed prime attempt ends the wait for it; the last one also lifts the restrictions on spares. */
  function AfterPrimeFailure(job: Job, d: Dests): Job
    requires job.currentPeer.Some?
  {
    if !Waiting(job.wait) then job
    else if DoneWithPrimes(d, job.currentPeer.value) then Lifted(ClearWait(job))
    else if job.wait.toGivePrimeItsChance then ClearWait(job)
    else job
  }

  function PrimeOver(w: Work): Work
    requires w.job.prime.Connecting?
  {
    Work(FinishPrime(w.job), w.fwd.(handled := w.fwd.handled + {w.job.prime.pos}))
  }

  function PrimeSucceeded(w: Work): Work
    requires w.job.prime.Connecting?
  {
    PrimeOver(w).(job := SendSuccess(PrimeOver(w).job, w.job.prime.pos, false))
  }

  function PrimeFailed(w: Work): Work
    requires w.job.prime.Connecting? && w.job.currentPeer.Some?
  {
    PrimeOver(w).(job := AfterPrimeFailure(Failed(PrimeOver(w).job, w.job.prime.pos), w.fwd.dests))
  }

  /** A spare attempt that is over has returned its allowance. */
  function SpareOver(w: Work): Work
    requires w.job.spare.Connecting?
  {
    Work(FinishSpare(WithGot(w.job, false)), w.fwd.(handled := w.fwd.handled + {w.job.spare.pos}))
  }

  function SpareSucceeded(w: Work): Work
    requires w.job.spare.Connecting?
  {
    SpareOver(w).(job := SendSuccess(SpareOver(w).job, w.job.spare.pos, false))
  }

  function SpareFailed(w: Work): Work
    requires w.job.spare.Connecting?
  {
    SpareOver(w).(job := Failed(SpareOver(w).job, w.job.spare.pos))
  }

  // --- Forwarding requests ---

  /** All jobs, all requests, and the name of the next job. */
  datatype Book = Book(jobs: map<nat, Job>, fwds: map<nat, Fwd>, nextJob: nat)

  ghost predicate OthersSame(fs: map<nat, Fwd>, fs': map<nat, Fwd>, f: nat) {
    fs.Keys == fs'.Keys && forall g :: g in fs && g != f ==> fs'[g] == fs[g]
  }

  /** The work of the job changes no other request, and adds and removes no job. */
  ghost predicate Touches(b: Book, b': Book, j: nat) {
    && j in b.jobs && b.jobs.Keys == b'.jobs.Keys && b'.jobs[j].setup == b.jobs[j].setup
    && b.jobs[j].setup.fwd in b.fwds && b.jobs[j].setup.fwd in b'.fwds
    && OthersSame(b.fwds, b'.fwds, b.jobs[j].setup.fwd)
  }

  lemma TouchesOnly(b: Book, b': Book, j: nat, fwd: Fwd)
    requires j in b.jobs && b.jobs.Keys == b'.jobs.Keys && b'.jobs[j].setup == b.jobs[j].setup
    requires b.jobs[j].setup.fwd in b.fwds
    requires b'.fwds == b.fwds || b'.fwds == b.fwds[b.jobs[j].setup.fwd := fwd]
    ensures Touches(b, b', j)
  {
  }

  lemma TouchesChain(b: Book, b': Book, b'': Book, j: nat)
    requires Touches(b, b', j) && Touches(b', b'', j)
    ensures Touches(b, b'', j)
  {
  }

  function WithFwd(b: Book, f: nat, fwd: Fwd): Book { b.(fwds := b.fwds[f := fwd]) }

  /** Ends forwarding; the opener, if one is expected to answer, learns that nobody wants its answer. */
  function StoppedFwd(b: Book, f: nat): Book
    requires f in b.fwds
  {
    var fwd := b.fwds[f];
    if fwd.stage.waiting && fwd.opener.Some? && fwd.opener.value in b.jobs
    then Book(b.jobs[fwd.opener.value := Disowned(b.jobs[fwd.opener.value])], b.fwds[f := Abandon(fwd)], b.nextJob)
    else if fwd.stage.dead then b
    else WithFwd(b, f, Abandon(fwd))
  }

  /** Starts an opener job if there is a path to try, waits if there may be one, or gives up. */
  function Proceeded(b: Book, f: nat): Book
    requires f in b.fwds
  {
    var fwd := b.fwds[f];
    if !Empty(fwd.dests)
    then Book(b.jobs[b.nextJob := NewJob(f, fwd)], b.fwds[f := Engage(fwd, b.nextJob)], b.nextJob + 1)
    else if fwd.dests.finalized then StoppedFwd(b, f)
    else b
  }

  /** Whether another attempt at forwarding is in order. */
  predicate MayRetry(fwd: Fwd, cfg: Config, curtime: int, retryable: bool) {
    retryable && fwd.nTries < cfg.forwardMaxTries && ForwardTimeout(cfg, curtime, fwd.startT) > 0 && !fwd.dontRetry
  }

  function Retried(b: Book, f: nat, cfg: Config, curtime: int, retryable: bool): Book
    requires f in b.fwds
  {
    if MayRetry(b.fwds[f], cfg, curtime, retryable) then Proceeded(b, f) else StoppedFwd(b, f)
  }

  /** Sets the attempt count, which must not go down. */
  function WithAttempts(fwd: Fwd, n: int): Fwd {
    fwd.(nTries := n, triesLog := fwd.triesLog + [n])
  }

  /** The request has its answer: an error ends it, a connection closed on the
    * way makes it try again, any other connection is used. */
  function Answered(b: Book, f: nat, a: Answer, cfg: Config, curtime: int, closed: bool, retryable: bool): Book
    requires f in b.fwds
  {
    var fwd := WithAttempts(b.fwds[f], a.nTries).(stage := b.fwds[f].stage.(waiting := false));
    if a.error then Retried(WithFwd(b, f, fwd.(dontRetry := true)), f, cfg, curtime, retryable)
    else if closed then Retried(WithFwd(b, f, fwd), f, cfg, curtime, retryable)
    else WithFwd(b, f, fwd.(stage := fwd.stage.(transporting := true), receipt := a.conn, race := if a.reused then RacePossible else fwd.race))
  }

  function Emptied(fwd: Fwd): Fwd { fwd.(receipt := None, stage := fwd.stage.(transporting := false)) }

  /** The connection is gone; a raced persistent connection returns its path. */
  function Freed(fwd: Fwd, zeroReply: bool): Fwd
    requires fwd.receipt.Some? ==> fwd.receipt.value < |fwd.dests.slots|
  {
    var raced :=
      if !zeroReply || fwd.race != RacePossible then fwd
      else if fwd.receipt.None? then fwd.(race := RaceHappened)
      else fwd.(dests := Reinstate(fwd.dests, fwd.receipt.value), handled := fwd.handled - {fwd.receipt.value},
                race := RaceHappened);
    Emptied(raced)
  }

  // --- What the functions imply ---

  lemma PconnFlags(w: Work, m: Moment, pconn: bool)
    ensures PrimeOpened(w, m.(pconnSpare := pconn)) == PrimeOpened(w, m)
    ensures SpareOpened(w, m.(pconnPrime := pconn)) == SpareOpened(w, m)
  {
    hide FindPrime, HaveSpare, DoneWithSpares;
  }

  /** A job that may not start anything either ends or still has attempts running. */
  lemma StopsOrWorks(w: Work, m: Moment)
    requires w.job.client.hasCallback && !w.job.life.stopped
    requires DoneAll(w.job, w.fwd.dests, m.cfg, m.curtime) || RanOut(w.job, m.cfg, m.curtime)
    ensures Checked(w, m) == w.(job := if w.job.client.canceled then w.job else w.job.(ranOut := RanOut(w.job, m.cfg, m.curtime)))
    ensures DoneAll(Checked(w, m).job, w.fwd.dests, m.cfg, m.curtime) || InFlight(w.job) > 0
    ensures !ChecksFail(w.job, w.fwd.dests, m.cfg, m.curtime)
  {
    hide RanOut, Empty, Opened, Refreshed;
    CachedRanOut(w.job, m.cfg, m.curtime);
  }

  /** The fields that enforcers and other jobs look at stay; paths only change hands. */
  predicate Moved(w: Work, r: Work) {
    && SameIdentity(w.job, r.job) && r.job.wait == w.job.wait
    && r.job.permit.gotSpareAllowance == w.job.permit.gotSpareAllowance
    && r.fwd == w.fwd.(dests := r.fwd.dests, handled := r.fwd.handled) && w.fwd.handled <= r.fwd.handled
  }

  lemma PrimeOnMoves(w: Work, pos: nat, pconn: bool)
    requires pos < |w.fwd.dests.slots| && !w.job.life.ended
    ensures Moved(w, PrimeOn(w, pos, pconn))
  {
  }

  lemma SpareOnMoves(w: Work, pos: nat, pconn: bool)
    requires pos < |w.fwd.dests.slots| && !w.job.life.ended
    ensures Moved(w, SpareOn(w, pos, pconn))
  {
  }

  /** A job still at work after a look at the prime track has a peer to work on. */
  predicate AtWork(w: Work, cfg: Config, curtime: int) {
    && w.job.currentPeer.Some? && !RanOut(w.job, cfg, curtime)
    && (w.job.wait.toGivePrimeItsChance ==> w.job.prime.Connecting?)
    && (InFlight(w.job) == 0 ==>
          && !DoneWithPeer(w.fwd.dests, w.job.currentPeer.value)
          && (Empty(w.fwd.dests) || FindPrime(w.fwd.dests, w.job.currentPeer.value).pos == |w.fwd.dests.slots|))
  }

  lemma PrimeOnKeeps(w: Work, pos: nat, pconn: bool)
    requires pos < |w.fwd.dests.slots|
    ensures var r := PrimeOn(w, pos, pconn);
            && r.job.spare == w.job.spare && r.job.life.started == w.job.life.started
            && r.job.life.stopped == w.job.life.stopped
            && r.job.client.canceled == w.job.client.canceled
            && (r.job.client.hasCallback ==> r.job == w.job.(prime := Connecting(pos)))
  {
    hide ConnectFwd, CanReuse;
  }

  /** The attempt to a new peer starts unless an idle connection serves it. */
  lemma NewPeerCases(w: Work, m: Moment)
    requires !Empty(w.fwd.dests)
    ensures var r := ToNewPeer(w, m);
            && r.job.spare == w.job.spare && r.job.client.canceled == w.job.client.canceled
            && r.job.life.stopped == w.job.life.stopped
            && r.job.life.started == w.job.life.started
            && (r.job.client.hasCallback ==>
                  && r.job.currentPeer.Some? && r.job.prime.Connecting?
                  && (RanOut(r.job, m.cfg, m.curtime) <==> RanOut(w.job, m.cfg, m.curtime)))
  {
    hide ChanceWait, FirstAvailable, PrimeOn;
    var pos := FirstAvailable(w.fwd.dests.slots);
    PrimeOnKeeps(Work(w.job.(currentPeer := Some(w.fwd.dests.slots[pos].path), primeStart := m.now), w.fwd), pos, m.pconnPrime);
  }

  /** An attempt on the prime track starts, unless there is no prime or an idle connection serves it. */
  lemma PrimeCases(w: Work, m: Moment)
    requires w.job.currentPeer.Some?
    ensures var r := PrimeOpened(w, m);
            var pos := FindPrime(w.fwd.dests, w.job.currentPeer.value).pos;
            && r.job.spare == w.job.spare && r.job.client.canceled == w.job.client.canceled
            && r.job.life.stopped == w.job.life.stopped
            && r.job.life.started == w.job.life.started
            && (r.job.client.hasCallback ==>
                  || (r == w && (Empty(w.fwd.dests) || pos == |w.fwd.dests.slots|))
                  || r.job == w.job.(prime := Connecting(pos)))
  {
    hide Empty, FindPrime, PrimeOn;
    var pos := FindPrime(w.fwd.dests, w.job.currentPeer.value).pos;
    if pos < |w.fwd.dests.slots| { PrimeOnKeeps(w, pos, m.pconnPrime); }
  }

  lemma AtNewPeer(w: Work, m: Moment)
    requires !Empty(w.fwd.dests) && w.job.client.hasCallback && !RanOut(w.job, m.cfg, m.curtime)
    ensures var r := ToNewPeer(w, m);
            && r.job.spare == w.job.spare && r.job.client.canceled == w.job.client.canceled
            && r.job.life.stopped == w.job.life.stopped
            && r.job.life.started == w.job.life.started && (r.job.client.hasCallback ==> AtWork(r, m.cfg, m.curtime))
  {
    hide DoneWithPeer, FindPrime, ChanceWait, FirstAvailable, PrimeOn, ToNewPeer;
    NewPeerCases(w, m);
  }

  lemma AtSamePeer(w: Work, m: Moment)
    requires w.job.client.hasCallback && !RanOut(w.job, m.cfg, m.curtime) && w.job.prime.Idle?
    requires w.job.currentPeer.Some?
    requires !w.job.wait.toGivePrimeItsChance
    requires InFlight(w.job) == 0 ==> !DoneWithPeer(w.fwd.dests, w.job.currentPeer.value)
    ensures var r := PrimeOpened(w, m);
            && r.job.spare == w.job.spare && r.job.client.canceled == w.job.client.canceled
            && r.job.life.stopped == w.job.life.stopped
            && r.job.life.started == w.job.life.started && (r.job.client.hasCallback ==> AtWork(r, m.cfg, m.curtime))
  {
    hide DoneWithPeer, Empty, FindPrime, PrimeOn, PrimeOpened;
    PrimeCases(w, m);
  }

  /** What a look at the prime track leaves behind. */
  lemma PrimeLeft(w: Work, m: Moment)
    requires w.job.client.hasCallback && !RanOut(w.job, m.cfg, m.curtime) && w.job.prime.Idle?
    requires !w.job.wait.toGivePrimeItsChance
    requires w.job.currentPeer.None? ==> !Empty(w.fwd.dests)
    requires w.job.currentPeer.Some? && InFlight(w.job) == 0 ==> !DoneWithPeer(w.fwd.dests, w.job.currentPeer.value)
    ensures var r := PrimeOpened(w, m);
            && r.job.spare == w.job.spare && r.job.client.canceled == w.job.client.canceled
            && r.job.life.stopped == w.job.life.stopped
            && r.job.life.started == w.job.life.started && (r.job.client.hasCallback ==> AtWork(r, m.cfg, m.curtime))
  {
    hide DoneWithPeer, AtWork, ToNewPeer, Empty, RanOut;
    if w.job.currentPeer.None? {
      AtNewPeer(w, m);
    } else {
      AtSamePeer(w, m);
    }
  }

  lemma SpareOnKeeps(w: Work, pos: nat, pconn: bool)
    requires pos < |w.fwd.dests.slots|
    ensures var r := SpareOn(w, pos, pconn);
            && r.job.prime == w.job.prime && r.job.currentPeer == w.job.currentPeer
            && r.job.life.started == w.job.life.started
            && r.job.life.stopped == w.job.life.stopped && r.job.client.canceled == w.job.client.canceled
            && r.job.wait == w.job.wait
            && (r.job.client.hasCallback ==> w.job.client.hasCallback && r.job.spare.Connecting?)
  {
    hide ConnectFwd, CanReuse;
  }

  /** What a look at the spare track does not change. A track that stays idle leaves the request alone. */
  lemma SpareKeeps(w: Work, m: Moment)
    ensures var r := SpareOpened(w, m);
            && r.job.prime == w.job.prime && r.job.currentPeer == w.job.currentPeer
            && r.job.life.started == w.job.life.started
            && r.job.life.stopped == w.job.life.stopped && r.job.client.canceled == w.job.client.canceled
            && (r.job.client.hasCallback ==> w.job.client.hasCallback)
            && (r.job.wait.toGivePrimeItsChance ==> w.job.wait.toGivePrimeItsChance)
            && (r.job.client.hasCallback && r.job.spare.Idle? ==> r.fwd == w.fwd && (r == w || Waiting(r.job.wait)))
            && (r.job.spare.Idle? ==> w.job.spare.Idle?)
            && (r == w ==> !SpareWanted(w))
  {
    hide FindSpare, SpareOn;
    if SpareWanted(w) {
      SpareOnKeeps(w.(job := WithGot(w.job, !w.job.permit.ignoreSpareRestrictions)),
                   FindSpare(w.fwd.dests, w.job.currentPeer.value).pos, m.pconnSpare);
    }
  }

  /** A job that nothing was started for is done or still active. */
  lemma SpareLeft(w: Work, m: Moment, calls: map<nat, Call>)
    requires w.job.client.hasCallback ==> AtWork(w, m.cfg, m.curtime)
    requires BaseOK(SpareOpened(w, m).job, SpareOpened(w, m).fwd, calls, m.cfg)
    ensures var r := SpareOpened(w, m);
            DoneAll(r.job, r.fwd.dests, m.cfg, m.curtime) || Active(r.job, r.fwd)
  {
    hide DoneWithPeer, Empty, FindPrime, HaveSpare, RanOut, BaseOK, SpareOpened;
    var r := SpareOpened(w, m);
    SpareKeeps(w, m);
    if r.job.client.hasCallback && InFlight(r.job) == 0 {
      NothingForgotten(r.job, r.fwd, calls, m.cfg);
    }
  }

  /** A job without a peer turns to the first path. */
  lemma CheckedAtStart(w: Work, m: Moment)
    requires w.job.client == Client(true, false) && !w.job.life.stopped && InFlight(w.job) == 0
    requires w.job.currentPeer.None? && !RanOut(w.job, m.cfg, m.curtime) && !Empty(w.fwd.dests)
    ensures Checked(w, m) == SpareOpened(ToNewPeer(w, m), m)
  {
    hide RanOut, Empty, ToNewPeer, SpareOpened;
  }

  /** An idle job without a prime to try looks for a spare. */
  lemma CheckedIdle(w: Work, m: Moment)
    requires w.job.client == Client(true, false) && !w.job.life.stopped && InFlight(w.job) == 0
    requires w.job.currentPeer.Some? && !RanOut(w.job, m.cfg, m.curtime)
    requires !(Empty(w.fwd.dests) && w.fwd.dests.finalized)
    requires !DoneWithPeer(w.fwd.dests, w.job.currentPeer.value) && !SparesOver(w)
    requires Empty(w.fwd.dests) || FindPrime(w.fwd.dests, w.job.currentPeer.value).pos == |w.fwd.dests.slots|
    ensures Checked(w, m) == SpareOpened(w, m)
  {
    hide RanOut, Empty, ToNewPeer, SpareOpened, DoneWithPeer, SparesOver, FindPrime;
  }

  /** A stalled job stays as it is when it checks for new connections. */
  lemma StalledUnmoved(w: Work, m: Moment, out: Work)
    requires Stalled(w.job, w.fwd.dests, m.cfg, m.curtime)
    requires Concluded(Checked(w, m), out, m.cfg, m.curtime)
    ensures out == w
  {
    StalledStays(w.job, w.fwd.dests, m.cfg, m.curtime);
    hide DoneWithPeer, DoneWithSpares, HaveSpare, RanOut, DoneAll;
  }

  /** A failed check ends the job. */
  lemma FailedCheckEnds(w: Work, m: Moment, out: Work)
    requires w.job.client.hasCallback && ChecksFail(w.job, w.fwd.dests, m.cfg, m.curtime)
    requires Concluded(Checked(w, m), out, m.cfg, m.curtime)
    ensures out.job.life.ended && out.job.answers == FinalAnswers(w.job)
  {
    hide RanOut, Empty, Opened, Refreshed, DoneWithPeer, PathsBack;
  }

  /** Nothing but the answers depends on whether the initiator wants one. */
  lemma LastStateSame(job: Job, out: bool, d: Dests)
    ensures LastState(job.(ranOut := out)) == LastState(job).(ranOut := out)
    ensures PathsBack(job.(ranOut := out), d) == PathsBack(job, d)
  {
    hide Returned, FinalAnswers, Replied, ClearWait, PrimeDropped, SpareDropped, Over;
    StepsIgnoreVerdict(job, out);
    StepsIgnoreVerdict(Replied(job), out);
    StepsIgnoreVerdict(ClearWait(Replied(job)), out);
    StepsIgnoreVerdict(PrimeDropped(ClearWait(Replied(job))), out);
    StepsIgnoreVerdict(SpareDropped(PrimeDropped(ClearWait(Replied(job)))), out);
  }

  /** The steps of a job that ends do not look at the verdict about time and attempts. */
  lemma StepsIgnoreVerdict(job: Job, out: bool)
    ensures Replied(job.(ranOut := out)) == Replied(job).(ranOut := out)
    ensures ClearWait(job.(ranOut := out)) == ClearWait(job).(ranOut := out)
    ensures PrimeDropped(job.(ranOut := out)) == PrimeDropped(job).(ranOut := out)
    ensures SpareDropped(job.(ranOut := out)) == SpareDropped(job).(ranOut := out)
    ensures Over(job.(ranOut := out)) == Over(job).(ranOut := out)
  {
    hide FinalAnswers;
    FinalAnswersSame(job, out);
  }

  lemma SpareNotWanted(w: Work, m: Moment)
    requires !SpareWanted(w)
    ensures SpareOpened(w, m) == w
  {
  }

  /** A job at work is done only if there is nothing for it to try. */
  lemma DoneMeans(w: Work, cfg: Config, curtime: int)
    requires !w.job.life.stopped && !w.job.client.canceled && (w.job.client.hasCallback ==> AtWork(w, cfg, curtime))
    ensures if DoneAll(w.job, w.fwd.dests, cfg, curtime) then !SpareWanted(w) else w.job.client.hasCallback
    ensures w.job.client.hasCallback ==> w.job.(ranOut := RanOut(w.job, cfg, curtime)) == w.job
  {
    hide DoneWithPeer, FindPrime, HaveSpare, Empty, RanOut;
    if w.job.client.hasCallback {
      CacheUnused(w.job, cfg, curtime);
      if HaveSpare(w.fwd.dests, w.job.currentPeer.value) { SpareKeepsPeer(w.fwd.dests, w.job.currentPeer.value); }
    }
  }

  lemma DropMoves(w: Work)
    requires !w.job.life.ended
    ensures w.job.prime.Connecting? && w.job.prime.pos < |w.fwd.dests.slots| ==>
              Moved(w, Work(PrimeDropped(w.job), w.fwd.(dests := Reinstate(w.fwd.dests, w.job.prime.pos))))
    ensures w.job.spare.Connecting? && w.job.spare.pos < |w.fwd.dests.slots| ==>
              Moved(w, Work(w.job.(spare := Idle), w.fwd.(dests := Reinstate(w.fwd.dests, w.job.spare.pos))))
  {
  }

  lemma FinishMoves(w: Work)
    requires !w.job.life.ended
    ensures w.job.prime.Connecting? ==> Moved(w, PrimeOver(w))
    ensures w.job.spare.Connecting? ==>
              Moved(w, Work(FinishSpare(w.job), w.fwd.(handled := w.fwd.handled + {w.job.spare.pos})))
  {
  }

  lemma WithGotKeeps(job: Job)
    ensures var r := WithGot(job, false);
            SameLife(job, r) && r.prime == job.prime && r.spare == job.spare && r.wait == job.wait && !r.permit.gotSpareAllowance
  {
  }

  lemma RepliedKeeps(job: Job)
    ensures var r := Replied(job);
            && r.setup == job.setup && r.prime == job.prime && r.spare == job.spare && r.wait == job.wait
            && (r.client.hasCallback ==> r.client.canceled)
  {
    hide FinalAnswers;
  }

  lemma ClearWaitKeeps(job: Job)
    ensures var r := ClearWait(job);
            && SameLife(job, r) && r.prime == job.prime && r.spare == job.spare && r.wait == NoWait
  {
  }

  lemma PrimeDroppedKeeps(job: Job)
    ensures var r := PrimeDropped(job);
            && SameLife(job, r) && r.prime.Idle? && r.spare == job.spare && r.wait == job.wait
  {
  }

  lemma SpareDroppedKeeps(job: Job)
    ensures var r := SpareDropped(job);
            && SameLife(job, r) && r.prime == job.prime && r.spare.Idle? && r.wait == job.wait
  {
  }

  /** What the fate of attempts does not change. */
  predicate SameLife(job: Job, r: Job) {
    && r.setup == job.setup && r.life.started == job.life.started && r.life.stopped == job.life.stopped
    && r.client.hasCallback == job.client.hasCallback
    && r.client.canceled == job.client.canceled && r.currentPeer == job.currentPeer
  }

  lemma FailedKeeps(job: Job, pos: nat)
    ensures var r := Failed(job, pos);
            && SameLife(job, r) && r.prime == job.prime && r.spare == job.spare && r.wait == job.wait
  {
  }

  lemma FinishPrimeKeeps(job: Job)
    ensures var r := FinishPrime(job);
            && SameLife(job, r) && r.prime.Idle? && r.spare == job.spare && r.wait == job.wait
  {
  }

  lemma FinishSpareKeeps(job: Job)
    ensures var r := FinishSpare(job);
            && SameLife(job, r) && r.prime == job.prime && r.spare.Idle? && r.wait == job.wait
            && r.permit.gotSpareAllowance == job.permit.gotSpareAllowance
  {
  }

  lemma UpdateKeeps(job: Job, d: Dests)
    requires job.currentPeer.Some?
    ensures var r := AfterPrimeFailure(job, d);
            && SameLife(job, r) && (job.prime.Idle? ==> r.prime.Idle? && !r.wait.toGivePrimeItsChance)
            && (!Waiting(job.wait) ==> r == job)
  {
    hide DoneWithPrimes, ClearWait, Waiting, SameLife;
    ClearWaitKeeps(job);
    LiftKeeps(ClearWait(job));
    assert SameLife(job, job) by { LifeGoesOn(job); }
    WaitingFlags(job.wait);
    if DoneWithPrimes(d, job.currentPeer.value) { LifeChain(job, ClearWait(job), Lifted(ClearWait(job))); }
  }

  lemma LifeGoesOn(job: Job)
    ensures SameLife(job, job)
  {
  }

  lemma LifeChain(a: Job, b: Job, c: Job)
    requires SameLife(a, b) && SameLife(b, c)
    ensures SameLife(a, c)
  {
  }

  lemma WaitingFlags(wait: SpareWait)
    ensures wait.toGivePrimeItsChance ==> Waiting(wait)
  {
  }

  lemma LiftKeeps(job: Job)
    ensures var r := Lifted(job);
            SameLife(job, r) && r.prime == job.prime && r.wait == job.wait
  {
  }

  lemma CheckedFails(w: Work, m: Moment)
    requires w.job.client.hasCallback && ChecksFail(w.job, w.fwd.dests, m.cfg, m.curtime)
    ensures Checked(w, m) == w.(job := Halted(w.job))
  {
    hide RanOut, Empty, DoneWithPeer;
  }

  /** What an allowance leaves behind. */
  lemma AllowedLeft(w: Work, m: Moment)
    requires w.job.currentPeer.Some? && HaveSpare(w.fwd.dests, w.job.currentPeer.value)
    requires w.job.life.started && !w.job.life.stopped && w.job.spare.Idle?
    ensures var r := Allowed(w, m);
            && r.job.life.started && !r.job.life.stopped && r.job.currentPeer == w.job.currentPeer
            && !Waiting(r.job.wait)
            && (DoneAll(r.job, r.fwd.dests, m.cfg, m.curtime) || InFlight(r.job) > 0)
  {
    hide RanOut, FindSpare, SpareOn, Empty;
    AttemptsLeft(ClearWait(w.job).(ranOut := true), m.cfg, m.curtime);
    SpareOnKeeps(Work(WithGot(ClearWait(w.job), true), w.fwd),
                 FindSpare(w.fwd.dests, w.job.currentPeer.value).pos, m.pconnSpare);
  }

  lemma SpareOnPermit(w: Work, pos: nat, pconn: bool)
    requires pos < |w.fwd.dests.slots|
    ensures var r := SpareOn(w, pos, pconn);
            && r.job.life == w.job.life
            && (if Reuses(w, pos, pconn)
                then !r.job.client.hasCallback && r.job.spare == w.job.spare
                     && r.job.permit == w.job.permit.(keptAllowance := w.job.permit.gotSpareAllowance)
                else r.job.spare.Connecting? && r.job.permit == w.job.permit)
  {
    hide ConnectFwd, CanReuse;
  }

  lemma LastPermit(job: Job)
    ensures var r := LastState(job);
            && r.life.ended
            && r.permit == if job.spare.Connecting? then job.permit.(gotSpareAllowance := false) else job.permit
  {
    hide FinalAnswers;
  }

  lemma SameReuse(w: Work, r: Work, pos: nat, pconn: bool)
    requires r.job.setup == w.job.setup && r.fwd == w.fwd && pos < |w.fwd.dests.slots|
    ensures Reuses(r, pos, pconn) == Reuses(w, pos, pconn)
  {
  }

  lemma QueuedGoesOn(job: Job, cfg: Config, curtime: int)
    ensures RanOut(job.(wait := Managed(SpareAllowance)), cfg, curtime) == RanOut(job, cfg, curtime)
  {
  }

  /** An allowance given by call leaks exactly if there is still time for a spare
    * attempt and that attempt reuses a persistent connection. */
  lemma GivenAllowanceKept(w: Work, m: Moment, out: Work)
    requires w.job.currentPeer.Some? && HaveSpare(w.fwd.dests, w.job.currentPeer.value)
    requires w.job.client.hasCallback && !w.job.life.stopped && !w.job.life.ended && !w.job.permit.gotSpareAllowance
    requires w.job.spare.Idle?
    requires !w.job.permit.keptAllowance
    requires Concluded(Allowed(w, m), out, m.cfg, m.curtime)
    ensures out.job.life.ended && out.job.permit.gotSpareAllowance <==>
              !RanOut(w.job, m.cfg, m.curtime) && Reuses(w, FindSpare(w.fwd.dests, w.job.currentPeer.value).pos, m.pconnSpare)
    ensures out.job.permit.keptAllowance <==> out.job.life.ended && out.job.permit.gotSpareAllowance
  {
    hide RanOut, FindSpare, SpareOn, LastState, PathsBack, CanReuse;
    var allowed := Work(WithGot(ClearWait(w.job), true), w.fwd);
    SpareOnPermit(allowed, FindSpare(w.fwd.dests, w.job.currentPeer.value).pos, m.pconnSpare);
    assert allowed.job.setup == w.job.setup;
    SameReuse(w, allowed, FindSpare(w.fwd.dests, w.job.currentPeer.value).pos, m.pconnSpare);
    LastPermit(Allowed(w, m).job);
  }

  /** How far a check gets before it looks for a spare. */
  function BeforeSpare(w: Work, m: Moment): Work {
    var r := Refreshed(w);
    if r.job.prime.Idle? then PrimeOpened(r, m) else r
  }

  /** A check for new connections loses an allowance exactly if it gets as far as
    * the spare, finds one, takes an allowance for it, and an idle persistent
    * connection serves. */
  lemma AllowanceKeptByCheck(w: Work, m: Moment, out: Work)
    requires !w.job.permit.keptAllowance && Concluded(Checked(w, m), out, m.cfg, m.curtime)
    ensures out.job.permit.keptAllowance <==>
              && w.job.client == Client(true, false) && !w.job.life.stopped
              && !DoneAll(w.job, w.fwd.dests, m.cfg, m.curtime) && !RanOut(w.job, m.cfg, m.curtime)
              && !ChecksFail(w.job, w.fwd.dests, m.cfg, m.curtime)
              && var b := BeforeSpare(w, m);
                 && SpareWanted(b) && !b.job.permit.ignoreSpareRestrictions && m.spareReady
                 && Reuses(b, FindSpare(b.fwd.dests, b.job.currentPeer.value).pos, m.pconnSpare)
  {
    hide RanOut, DoneAll, ChecksFail, Refreshed, PrimeOpened, SpareOpened, LastState, PathsBack, FindSpare, SpareWanted;
    var b := BeforeSpare(w, m);
    RefreshPermit(w);
    PrimePermit(Refreshed(w), m);
    KeptBySpare(b, m);
    LastPermit(Checked(w, m).job);
  }

  lemma RefreshPermit(w: Work)
    ensures Refreshed(w).job.permit.keptAllowance == w.job.permit.keptAllowance
  {
    hide PeerOver, SparesOver;
  }

  lemma PrimePermit(w: Work, m: Moment)
    ensures PrimeOpened(w, m).job.permit == w.job.permit
  {
    hide ConnectFwd, CanReuse, FindPrime, ChanceWait, Empty;
  }

  lemma KeptBySpare(w: Work, m: Moment)
    requires !w.job.permit.keptAllowance
    ensures SpareOpened(w, m).job.permit.keptAllowance <==>
              && SpareWanted(w) && !w.job.permit.ignoreSpareRestrictions && m.spareReady
              && Reuses(w, FindSpare(w.fwd.dests, w.job.currentPeer.value).pos, m.pconnSpare)
  {
    hide FindSpare, SpareOn, CanReuse;
    if SpareWanted(w) {
      var pos := FindSpare(w.fwd.dests, w.job.currentPeer.value).pos;
      var allowed := w.(job := WithGot(w.job, !w.job.permit.ignoreSpareRestrictions));
      SpareOnPermit(allowed, pos, m.pconnSpare);
      SameReuse(w, allowed, pos, m.pconnSpare);
    }
  }
}
