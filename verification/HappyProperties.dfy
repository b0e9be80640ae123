/** What the invariant of `HappyConnOpener.Worker`, which every run keeps, means
  * for the promises of Happy Eyeballs connection opening. */
module HappyProperties {
  import opened Wrappers
  import opened ResolvedPeers
  import opened HappyModel
  import opened HappyConnOpener
  import opened Sequences

  // --- Allowances ---

  ghost function Pending(jobs: map<nat, Job>): set<nat> {
    set j | j in jobs && PendingAllowance(jobs[j])
  }

  ghost function Got(jobs: map<nat, Job>): set<nat> {
    set j | j in jobs && jobs[j].permit.gotSpareAllowance
  }

  /** The level counts the allowances on their way to jobs plus the allowances
    * that jobs have, and stays within happy_eyeballs_connect_limit. */
  lemma AllowancesAccounted(w: Worker)
    requires w.Inv()
    ensures w.concurrencyLevel == |Pending(w.jobs)| + |Got(w.jobs)|
    ensures w.cfg.connectLimit > 0 && w.concurrencyLevel > 0 ==>
              (w.concurrencyLevel - 1) * w.cfg.workers < w.cfg.connectLimit
    ensures w.cfg.connectLimit == 0 ==> w.concurrencyLevel == 0
  {
    hide QueueOK, LinksOK, CallsOK, PathsOK, HaveSpare, DoneWithSpares;
    var p, g := Pending(w.jobs), Got(w.jobs);
    assert p + g == Holders(w.jobs);
    assert p !! g by {
      forall j | j in w.jobs
        ensures !(PendingAllowance(w.jobs[j]) && w.jobs[j].permit.gotSpareAllowance)
      {
        assert JobOK(w.jobs[j], w.fwds, w.calls, w.cfg);
      }
    }
  }

  /** Live jobs that account for an allowance. */
  ghost function LiveHolders(jobs: map<nat, Job>): set<nat> {
    set j | j in jobs && !jobs[j].life.ended && Holds(jobs[j])
  }

  /** Jobs whose allowed spare was an idle persistent connection. */
  ghost function Keepers(jobs: map<nat, Job>): set<nat> {
    set j | j in jobs && jobs[j].permit.keptAllowance
  }

  /** The allowances that are out belong to live jobs, or they are lost: a job
    * that ended still accounts for one if and only if its allowed spare was an
    * idle persistent connection. */
  lemma AllowancesKept(w: Worker)
    requires w.Inv()
    ensures w.concurrencyLevel == |LiveHolders(w.jobs)| + |Keepers(w.jobs)|
    ensures forall j :: j in w.jobs && w.jobs[j].life.ended ==> (Holds(w.jobs[j]) <==> w.jobs[j].permit.keptAllowance)
    ensures forall j :: j in Keepers(w.jobs) ==> w.jobs[j].life.ended && KeepsAllowance(w.jobs[j])
    ensures Keepers(w.jobs) == Kept(w.jobs)
  {
    hide QueueOK, LinksOK, CallsOK, PathsOK, HaveSpare, DoneWithSpares, SettledOK, Turns, Numbered;
    var l, k := LiveHolders(w.jobs), Keepers(w.jobs);
    forall j | j in w.jobs
      ensures w.jobs[j].permit.keptAllowance ==> w.jobs[j].life.ended && KeepsAllowance(w.jobs[j])
      ensures w.jobs[j].life.ended ==> (Holds(w.jobs[j]) <==> w.jobs[j].permit.keptAllowance)
      ensures w.jobs[j].life.ended ==> (w.jobs[j].permit.gotSpareAllowance <==> w.jobs[j].permit.keptAllowance)
    {
      assert JobOK(w.jobs[j], w.fwds, w.calls, w.cfg);
    }
    assert l + k == Holders(w.jobs) && l !! k;
  }

  /** Once all jobs are over, the level is the number of those whose allowed spare
    * was an idle persistent connection, and so back at zero if and only if none was. */
  lemma AllowancesReturned(w: Worker)
    requires w.Inv() && forall j :: j in w.jobs ==> w.jobs[j].life.ended
    ensures w.concurrencyLevel == |Keepers(w.jobs)|
    ensures w.concurrencyLevel == 0 <==> forall j :: j in w.jobs ==> !w.jobs[j].permit.keptAllowance
  {
    AllowancesKept(w);
    assert LiveHolders(w.jobs) == {};
    if w.concurrencyLevel == 0 {
      forall j | j in w.jobs
        ensures !w.jobs[j].permit.keptAllowance
      {
        assert j !in Keepers(w.jobs);
      }
    } else {
      var j :| j in Keepers(w.jobs);
    }
  }

  // --- Waits ---

  /** At most one reason; none beside a spare attempt; on a list exactly while
    * that list's reason holds and no call is pending, and then in one place. */
  lemma WaitsExclusive(w: Worker, j: nat)
    requires w.Inv() && j in w.jobs && !w.jobs[j].life.ended
    ensures ReasonCount(w.jobs[j].wait) <= 1
    ensures w.jobs[j].spare.Connecting? ==> ReasonCount(w.jobs[j].wait) == 0
    ensures j in w.primeGiver.queue <==> w.jobs[j].wait.toGivePrimeItsChance && w.jobs[j].wait.callback.None?
    ensures j in w.spareGiver.queue <==> w.jobs[j].wait.forSpareAllowance && w.jobs[j].wait.callback.None?
    ensures NoRepeats(w.primeGiver.queue) && NoRepeats(w.spareGiver.queue)
    ensures !(j in w.primeGiver.queue && j in w.spareGiver.queue)
  {
    hide LinksOK, CallsOK, PathsOK, HaveSpare, DoneWithSpares, AnswersOK;
    assert JobOK(w.jobs[j], w.fwds, w.calls, w.cfg);
  }

  /** Only live jobs are on the lists, so the pointers there are always valid. */
  lemma ListsHoldLiveJobs(w: Worker, j: nat)
    requires w.Inv() && (j in w.primeGiver.queue || j in w.spareGiver.queue)
    ensures j in w.jobs && !w.jobs[j].life.ended
  {
    hide LinksOK, CallsOK, BaseOK, StableOK;
    assert JobOK(w.jobs[j], w.fwds, w.calls, w.cfg);
  }

  /** First come, first served: whoever joined the list before a job that was
    * called back does not wait any more, and calls are made in the order of joining. */
  lemma FirstComeFirstServed(w: Worker, kind: Kind, a: nat, b: nat)
    requires w.Inv()
    ensures var e := w.Giver(kind);
            && |e.tickets| == |e.queue|
            && (forall i :: 0 <= i < |e.queue| ==> e.tickets[i] < |e.joins| && e.queue[i] == e.joins[e.tickets[i]])
            && (a < b && b in e.served ==> a !in e.tickets)
            && (a < b < |e.served| ==> e.served[a] < e.served[b])
            && (a < b < |e.tickets| ==> e.tickets[a] < e.tickets[b])
  {
    hide QueueOK, LinksOK, CallsOK, JobsOK, Holders, SettledOK, Numbered, Turns;
    ServedInTurn(w.Giver(kind), a, b);
  }

  /** Something still to come concerns the job: its start, an attempt, a stop, news
    * about destinations, an enforcer that has a call or a wake-up pending, or a
    * live job that has an allowance, and may return it. */
  ghost predicate Moves(w: Worker, j: nat)
    reads w
    requires j in w.jobs && w.jobs[j].setup.fwd in w.fwds
  {
    var job, fwd := w.jobs[j], w.fwds[w.jobs[j].setup.fwd];
    || !job.life.started || job.client.canceled || InFlight(job) > 0
    || fwd.news.notified || !fwd.dests.finalized
    || (job.wait.callback.Some? && job.wait.callback.value in w.calls && w.calls[job.wait.callback.value].job == j)
    || (j in w.primeGiver.queue && w.primeGiver.waitEnd > 0.0)
    || (j in w.spareGiver.queue && (w.spareGiver.waitEnd > 0.0 || LiveHolders(w.jobs) != {}))
  }

  /** All primes have failed, a spare is known, and yet the job waits for its
    * primes to fail, because concurrent spares are prohibited. */
  predicate WaitsForNothing(job: Job, d: Dests, cfg: Config) {
    && job.wait.forPrimesToFail && cfg.connectLimit == 0
    && job.currentPeer.Some? && OnlySpares(d, job.currentPeer.value)
  }

  /** The job is on the list for an allowance, the limit is reached, and nobody
    * has an allowance to return. */
  ghost predicate Starves(w: Worker, j: nat)
    reads w
  {
    && j in w.spareGiver.queue && w.spareGiver.waitEnd <= 0.0
    && LimitReached(w.cfg, w.concurrencyLevel) && LiveHolders(w.jobs) == {}
  }

  /** Which live jobs are forgotten: exactly those that nothing else is to come
    * for and that wait for primes that are over or for an allowance that is lost. */
  lemma NoJobForgotten(w: Worker, j: nat)
    requires w.Inv() && j in w.jobs && !w.jobs[j].life.ended
    ensures w.jobs[j].setup.fwd in w.fwds
    ensures !Moves(w, j) <==>
              && Dormant(w.jobs[j], w.fwds[w.jobs[j].setup.fwd])
              && (WaitsForNothing(w.jobs[j], w.fwds[w.jobs[j].setup.fwd].dests, w.cfg) || Starves(w, j))
    ensures !Moves(w, j) <==> Forgotten(w.jobs, w.fwds, w.cfg, w.spareGiver.waitEnd, j)
  {
    hide LinksOK, PathsOK, HaveSpare, DoneWithSpares, AnswersOK, LimitReached, LimitKept, Holders, SettledOK, Turns,
         Numbered, OnlySpares, LiveHolders, Kept;
    assert JobOK(w.jobs[j], w.fwds, w.calls, w.cfg);
    WaitsExclusive(w, j);
    LostAllowances(w);
  }

  /** Lost allowances alone reach the limit if and only if it is reached and no
    * live job has an allowance. */
  lemma LostAllowances(w: Worker)
    requires w.Inv()
    ensures LimitReached(w.cfg, |Kept(w.jobs)|) <==> LimitReached(w.cfg, w.concurrencyLevel) && LiveHolders(w.jobs) == {}
  {
    hide QueueOK, LinksOK, CallsOK, JobsOK, SettledOK, Turns, Numbered, Holders, LiveHolders, Kept, LimitReached,
         LimitKept;
    AllowancesKept(w);
    var kept, level := |Kept(w.jobs)|, w.concurrencyLevel;
    if LimitReached(w.cfg, kept) {
      LimitGrows(w.cfg, kept, level);
      LimitExact(w.cfg, kept, level);
    }
  }

  // --- The check that can fail, and the wait that can stall ---

  /** checkForNewConnection() can fail a check only in a job that waits for its
    * primes to fail, so never unless concurrent spares are prohibited. */
  lemma FailingCheckNeedsZeroLimit(w: Worker, j: nat)
    requires w.Inv() && j in w.jobs && !w.jobs[j].life.ended && w.jobs[j].setup.fwd in w.fwds
    requires ChecksFail(w.jobs[j], w.fwds[w.jobs[j].setup.fwd].dests, w.cfg, w.curtime)
    ensures w.jobs[j].wait.forPrimesToFail && w.cfg.connectLimit == 0
  {
    hide QueueOK, LinksOK, CallsOK, BaseOK, DoneWithPeer;
    assert JobOK(w.jobs[j], w.fwds, w.calls, w.cfg);
    StaleWait(w.jobs[j], w.fwds[w.jobs[j].setup.fwd], w.calls, w.cfg);
  }

  /** ... and then it does fail: the last prime failed while destinations were
    * still coming, and the next one belongs to another peer. */
  lemma NextPeerFailsCheck(job: Job, d: Dests, cfg: Config, curtime: int, p: Path)
    requires job.client.hasCallback && !job.life.stopped && !job.client.canceled && !RanOut(job, cfg, curtime)
    requires job.wait.forPrimesToFail && ReasonCount(job.wait) == 1 && InFlight(job) == 0
    requires job.currentPeer.Some? && Empty(d) && p.peer != job.currentPeer.value.peer
    ensures ChecksFail(job, AddPath(d, p), cfg, curtime)
  {
    FirstAvailableIs(AddPath(d, p).slots, |d.slots|);
  }

  /** ... while a spare path of the same peer leaves the job stalled: see
    * `NoteCandidatesChange`, which changes nothing then. */
  lemma OwnSpareStalls(job: Job, d: Dests, cfg: Config, curtime: int, p: Path)
    requires job.life.started && job.client.hasCallback && !job.life.stopped && !job.client.canceled
    requires !RanOut(job, cfg, curtime)
    requires job.wait == NoWait.(forPrimesToFail := true) && InFlight(job) == 0
    requires job.currentPeer.Some? && Empty(d)
    requires p == Path(job.currentPeer.value.peer, !job.currentPeer.value.v4)
    ensures Stalled(job, AddPath(d, p), cfg, curtime)
    ensures Stalled(job, Finalize(AddPath(d, p)), cfg, curtime)
  {
    var d' := AddPath(d, p);
    FirstAvailableIs(d'.slots, |d.slots|);
    FirstNotPrimeIs(d'.slots, job.currentPeer.value, |d.slots|);
  }

  // --- Attempts, answers, paths ---

  /** Over all retries, the attempts of a request never go down and never exceed
    * forward_max_tries plus one. */
  lemma TriesBounded(w: Worker, f: nat, a: nat, b: nat)
    requires w.Inv() && f in w.fwds && a <= b < |w.fwds[f].triesLog|
    ensures w.fwds[f].triesLog[a] <= w.fwds[f].triesLog[b] <= w.fwds[f].nTries <= w.cfg.forwardMaxTries + 1
  {
    hide QueueOK, CallsOK, JobsOK;
    assert FwdOK(f, w.fwds[f], w.jobs, w.cfg);
  }

  /** ... because a job counts attempts in flight against the same limit. */
  lemma AttemptsBounded(w: Worker, j: nat)
    requires w.Inv() && j in w.jobs && !w.jobs[j].life.ended
    ensures w.jobs[j].setup.firstTries <= w.jobs[j].nTries
    ensures w.jobs[j].nTries + InFlight(w.jobs[j]) <= Max(w.jobs[j].setup.firstTries, w.cfg.forwardMaxTries + 1)
  {
    hide QueueOK, LinksOK, CallsOK, PathsOK, HaveSpare, DoneWithSpares, AnswersOK;
    assert JobOK(w.jobs[j], w.fwds, w.calls, w.cfg);
  }

  /** A live job has not answered; a job that ended answered exactly once unless
    * nobody wants the answer; errors come with failures and only with them. */
  lemma AnsweredOnce(w: Worker, j: nat)
    requires w.Inv() && j in w.jobs
    ensures !w.jobs[j].life.ended ==> w.jobs[j].answers == []
    ensures w.jobs[j].life.ended ==> |w.jobs[j].answers| == 1 || (w.jobs[j].client.canceled && w.jobs[j].answers == [])
    ensures forall i :: 0 <= i < |w.jobs[j].answers| ==>
                          (w.jobs[j].answers[i].error <==> !w.jobs[j].answers[i].open)
  {
    hide QueueOK, LinksOK, CallsOK, PathsOK, HaveSpare, DoneWithSpares;
    assert JobOK(w.jobs[j], w.fwds, w.calls, w.cfg);
  }

  /** A request that waits for its opener has a live one or a delivered answer. */
  lemma WaitHasAnEnd(w: Worker, f: nat)
    requires w.Inv() && f in w.fwds && w.fwds[f].stage.waiting
    ensures w.fwds[f].opener.Some? && w.fwds[f].opener.value in w.jobs
    ensures w.jobs[w.fwds[f].opener.value].life.ended ==> |w.jobs[w.fwds[f].opener.value].answers| == 1
  {
    hide QueueOK, CallsOK, PathsOK, BaseOK, StableOK;
    assert FwdOK(f, w.fwds[f], w.jobs, w.cfg);
    assert JobOK(w.jobs[w.fwds[f].opener.value], w.fwds, w.calls, w.cfg);
  }

  /** The tracks of the live opener of a request, idle when there is none. */
  function TracksOf(fwd: Fwd, jobs: map<nat, Job>): (Attempt, Attempt) {
    if fwd.opener.Some? && fwd.opener.value in jobs && !jobs[fwd.opener.value].life.ended
    then (jobs[fwd.opener.value].prime, jobs[fwd.opener.value].spare)
    else (Idle, Idle)
  }

  /** Every path of a request is in exactly one place: available, on the prime
    * track, on the spare track, or handled. */
  lemma PathsConserved(w: Worker, f: nat, pos: nat)
    requires w.Inv() && f in w.fwds && pos < |w.fwds[f].dests.slots|
    ensures var tracks := TracksOf(w.fwds[f], w.jobs);
            PathPlaced(tracks.0, tracks.1, w.fwds[f].dests.slots[pos], pos, w.fwds[f].handled)
  {
    hide QueueOK, CallsOK, HaveSpare, DoneWithSpares, AnswersOK, StableOK;
    assert FwdOK(f, w.fwds[f], w.jobs, w.cfg);
    if w.fwds[f].opener.Some? {
      assert JobOK(w.jobs[w.fwds[f].opener.value], w.fwds, w.calls, w.cfg);
    }
  }
}
