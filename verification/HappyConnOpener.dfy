/** Happy Eyeballs connection opening in one Squid worker: any number of
  * HappyConnOpener jobs, the two order enforcers they share, and the FwdState
  * objects that start the jobs and retry after them. */
module HappyConnOpener {
  import opened Wrappers
  import opened ResolvedPeers
  import opened HappyModel
  import opened HappySpec

  class Worker {
    const cfg: Config
    var now: real
    var curtime: int
    var jobs: map<nat, Job>
    var nextJob: nat
    var fwds: map<nat, Fwd>
    var calls: map<nat, Call>
    var nextCall: nat
    var primeGiver: Enforcer
    var spareGiver: Enforcer
    var lastAllowanceStart: real
    var concurrencyLevel: int

    /** Jobs, as they were when `Settle` noted them, that nothing is going to
      * change any more. No call of a job or of its request touches this record,
      * so the invariant says that such a job stays as it is. */
    ghost var settled: map<nat, Job>

    // --- Invariants ---

    ghost predicate QueuesOK(js: map<nat, Job>)
      reads this
    {
      && now >= 0.0
      && QueueOK(js, primeGiver.queue, PrimeChance)
      && QueueOK(js, spareGiver.queue, SpareAllowance)
      && InTurn(primeGiver) && InTurn(spareGiver)
      && CallsOK(js, calls)
      && Numbered(js, calls, nextJob, nextCall)
    }

    /** `extra` allowances are out beyond those that jobs account for. */
    ghost predicate LevelOK(js: map<nat, Job>, extra: nat)
      reads this
    {
      concurrencyLevel == |Holders(js)| + extra && LimitKept(cfg, concurrencyLevel)
    }

    /** A list of waiting jobs never lacks a wake-up: an event is scheduled, or
      * the limit is reached. Without a pause to observe, no event is scheduled. */
    ghost predicate PrimeWakes()
      reads this
    {
      && (primeGiver.queue != [] ==> primeGiver.waitEnd > 0.0)
      && (cfg.connectTimeout <= 0 ==> primeGiver.waitEnd <= 0.0)
    }

    ghost predicate SpareWakes()
      reads this
    {
      && (spareGiver.queue != [] ==> spareGiver.waitEnd > 0.0 || LimitReached(cfg, concurrencyLevel))
      && (cfg.connectGap <= 0 ==> spareGiver.waitEnd <= 0.0)
    }

    ghost predicate SettledStay(js: map<nat, Job>)
      reads this
    {
      SettledOK(settled, js, fwds, cfg, spareGiver.waitEnd)
    }

    /** Everything except the level and the condition of job `j`. */
    ghost predicate FrameOK(js: map<nat, Job>, j: nat)
      reads this
    {
      && QueuesOK(js) && PrimeWakes() && SpareWakes()
      && LinksOK(js, fwds, cfg) && OthersOK(js, fwds, calls, cfg, j)
      && SettledStay(js) && j !in settled
    }

    /** Everything except the condition of job `j`, which is in the middle of a step. */
    ghost predicate Rest(j: nat)
      reads this
    {
      FrameOK(jobs, j) && LevelOK(jobs, 0)
    }

    ghost predicate Inv()
      reads this
    {
      && QueuesOK(jobs) && LevelOK(jobs, 0) && PrimeWakes() && SpareWakes()
      && LinksOK(jobs, fwds, cfg) && JobsOK(jobs, fwds, calls, cfg) && SettledStay(jobs)
    }

    predicate Live(j: nat)
      reads this
    {
      j in jobs && !jobs[j].life.ended && jobs[j].setup.fwd in fwds
    }

    ghost predicate Base(j: nat)
      reads this
    {
      Live(j) && BaseOK(jobs[j], fwds[jobs[j].setup.fwd], calls, cfg)
    }

    /** The job and its request, for the functions that say what calls do. */
    function At(j: nat): Work
      requires j in jobs && jobs[j].setup.fwd in fwds
      reads this`jobs, this`fwds
    {
      Work(jobs[j], fwds[jobs[j].setup.fwd])
    }

    /** What a call that begins now finds. */
    function Around(pconnPrime: bool, pconnSpare: bool): Moment
      reads this`now, this`curtime, this`concurrencyLevel, this`lastAllowanceStart
    {
      Moment(cfg, now, curtime, SpareReady(), pconnPrime, pconnSpare)
    }

    /** Whether a spare attempt may start at once. */
    predicate SpareReady()
      reads this`now, this`concurrencyLevel, this`lastAllowanceStart
    {
      !LimitReached(cfg, concurrencyLevel) && !Pausing(cfg, lastAllowanceStart, now, cfg.connectGap)
    }

    lemma ReadyAtStart()
      requires cfg.connectGap <= 0 && cfg.connectLimit > 0 && concurrencyLevel == 0
      ensures SpareReady()
    {
    }

    function Books(): Book
      reads this`jobs, this`fwds, this`nextJob
    {
      Book(jobs, fwds, nextJob)
    }

    // --- Order enforcers ---

    /** Whether the given start time plus the timeout is still ahead; if so,
      * makes sure that a wake-up event is scheduled no later than that. */
    function StartedWaiting(e: Enforcer, lastStart: real, timeoutMsec: int): (r: (bool, Enforcer))
      requires now >= 0.0
      reads this
      ensures r.0 <==> Pausing(cfg, lastStart, now, timeoutMsec)
      ensures r.1 == e.(waitEnd := r.1.waitEnd)
      ensures r.0 ==> 0.0 < r.1.waitEnd <= Min(lastStart, now) + Pause(cfg, timeoutMsec)
      ensures r.0 && e.waitEnd > 0.0 ==> r.1.waitEnd <= e.waitEnd
      ensures !r.0 ==> r.1 == e
    {
      if timeoutMsec <= 0 then (false, e) else
      var newWaitEnd := Min(lastStart, now) + Pause(cfg, timeoutMsec);
      if newWaitEnd <= now then (false, e)
      else if !(e.waitEnd > 0.0) || newWaitEnd < e.waitEnd then (true, e.(waitEnd := newWaitEnd))
      else (true, e)
    }

    /** Whether the conditions that the enforcer waits for are met. */
    predicate ReadyFor(kind: Kind, j: nat)
      requires j in jobs
      reads this
    {
      if kind.PrimeChance? then !Pausing(cfg, jobs[j].primeStart, now, cfg.connectTimeout) else SpareReady()
    }

    /** Whether somebody is on the list and the conditions are met for the first one. */
    predicate FrontIsReady(kind: Kind)
      reads this
    {
      Queue(kind) != [] && Queue(kind)[0] in jobs && ReadyFor(kind, Queue(kind)[0])
    }

    method ReadyNow(kind: Kind, j: nat) returns (ready: bool)
      requires now >= 0.0 && j in jobs
      modifies this`primeGiver, this`spareGiver
      ensures ready == old(ReadyFor(kind, j))
      ensures primeGiver == old(primeGiver).(waitEnd := primeGiver.waitEnd)
      ensures spareGiver == old(spareGiver).(waitEnd := spareGiver.waitEnd)
      ensures old(primeGiver.waitEnd) > 0.0 ==> primeGiver.waitEnd > 0.0
      ensures old(spareGiver.waitEnd) > 0.0 ==> spareGiver.waitEnd > 0.0
      ensures cfg.connectTimeout <= 0 ==> primeGiver == old(primeGiver)
      ensures cfg.connectGap <= 0 || LimitReached(cfg, concurrencyLevel) ==> spareGiver == old(spareGiver)
      ensures kind.PrimeChance? ==> spareGiver == old(spareGiver) && (ready || primeGiver.waitEnd > 0.0)
      ensures kind.SpareAllowance? ==>
                && primeGiver == old(primeGiver)
                && (ready ==> !LimitReached(cfg, concurrencyLevel))
                && (!ready ==> LimitReached(cfg, concurrencyLevel) || spareGiver.waitEnd > 0.0)
    {
      if kind.PrimeChance? {
        var r := StartedWaiting(primeGiver, jobs[j].primeStart, cfg.connectTimeout);
        ready, primeGiver := !r.0, r.1;
      } else if LimitReached(cfg, concurrencyLevel) {
        ready := false;
      } else {
        var r := StartedWaiting(spareGiver, lastAllowanceStart, cfg.connectGap);
        ready, spareGiver := !r.0, r.1;
      }
    }

    method RecordAllowance()
      modifies this`concurrencyLevel, this`lastAllowanceStart
      ensures concurrencyLevel == old(concurrencyLevel) + 1 && lastAllowanceStart == now
    {
      concurrencyLevel := concurrencyLevel + 1;
      lastAllowanceStart := now;
    }

    function Giver(kind: Kind): Enforcer
      reads this`primeGiver, this`spareGiver
    {
      if kind.PrimeChance? then primeGiver else spareGiver
    }

    function Queue(kind: Kind): seq<nat>
      reads this`primeGiver, this`spareGiver
    {
      Giver(kind).queue
    }

    method SetGiver(kind: Kind, e: Enforcer)
      modifies this`primeGiver, this`spareGiver
      ensures Giver(kind) == e && Giver(OtherKind(kind)) == old(Giver(OtherKind(kind)))
    {
      if kind.PrimeChance? {
        primeGiver := e;
      } else {
        spareGiver := e;
      }
    }

    /** What a checkpoint works on: all but the wake-up of the list it drains. */
    ghost predicate Draining(kind: Kind, j: nat)
      reads this
    {
      && QueuesOK(jobs) && LevelOK(jobs, 0) && (if kind.PrimeChance? then SpareWakes() else PrimeWakes())
      && (if kind.PrimeChance? then cfg.connectTimeout <= 0 ==> primeGiver.waitEnd <= 0.0
          else cfg.connectGap <= 0 ==> spareGiver.waitEnd <= 0.0)
      && LinksOK(jobs, fwds, cfg) && OthersOK(jobs, fwds, calls, cfg, j)
      && j !in Queue(kind) && SettledStay(jobs) && j !in settled
    }

    /** Schedules the call that ends the wait of the job at the front and takes
      * the job off the list. */
    method NotifyFront(kind: Kind, ghost j: nat)
      requires Draining(kind, j) && Queue(kind) != []
      requires kind.SpareAllowance? ==> !LimitReached(cfg, concurrencyLevel)
      modifies this`jobs, this`calls, this`nextCall, this`concurrencyLevel, this`lastAllowanceStart,
               this`primeGiver, this`spareGiver
      ensures Draining(kind, j)
      ensures old(Giver(kind)).tickets != [] && Giver(kind) == Serve(old(Giver(kind)))
      ensures Giver(OtherKind(kind)) == old(Giver(OtherKind(kind)))
      ensures old(Queue(kind))[0] in old(jobs)
      ensures jobs == old(jobs)[old(Queue(kind))[0] := WithCall(old(jobs)[old(Queue(kind))[0]], old(nextCall))]
      ensures calls == old(calls)[old(nextCall) := Call(old(Queue(kind))[0], kind)] && nextCall == old(nextCall) + 1
      ensures j in jobs ==> jobs[j] == old(jobs[j])
      ensures Extends(old(calls), calls)
    {
      hide QueueOK, LinksOK, CallsOK, OthersOK, Holders, LimitKept, LimitReached, SettledOK, Turns, Numbered, Extends,
           Serve;
      FrontMoves(kind, j, Queue(kind)[0]);
      TurnServe(Giver(kind));
      ServeKeeps(Giver(kind));
      if kind.SpareAllowance? { LimitUp(cfg, concurrencyLevel); }
      MoveFront(kind);
    }

    method MoveFront(kind: Kind)
      requires Queue(kind) != [] && Giver(kind).tickets != [] && Queue(kind)[0] in jobs
      modifies this`jobs, this`calls, this`nextCall, this`concurrencyLevel, this`lastAllowanceStart,
               this`primeGiver, this`spareGiver
      ensures Giver(kind) == Serve(old(Giver(kind))) && Giver(OtherKind(kind)) == old(Giver(OtherKind(kind)))
      ensures jobs == old(jobs)[old(Queue(kind))[0] := WithCall(old(jobs)[old(Queue(kind))[0]], old(nextCall))]
      ensures calls == old(calls)[old(nextCall) := Call(old(Queue(kind))[0], kind)] && nextCall == old(nextCall) + 1
      ensures concurrencyLevel == old(concurrencyLevel) + (if kind.SpareAllowance? then 1 else 0)
    {
      var x := Queue(kind)[0];
      if kind.SpareAllowance? {
        RecordAllowance();
      }
      SetGiver(kind, Serve(Giver(kind)));
      calls := calls[nextCall := Call(x, kind)];
      jobs := jobs[x := WithCall(jobs[x], nextCall)];
      nextCall := nextCall + 1;
    }

    /** What the move of the front job leaves intact. */
    lemma FrontMoves(kind: Kind, j: nat, x: nat)
      requires Draining(kind, j) && Queue(kind) != [] && x == Queue(kind)[0]
      requires kind.SpareAllowance? ==> !LimitReached(cfg, concurrencyLevel)
      ensures x in jobs && x != j && j !in Queue(kind)[1..]
      ensures var jobs', calls' := jobs[x := WithCall(jobs[x], nextCall)], calls[nextCall := Call(x, kind)];
              && QueueOK(jobs', Queue(kind)[1..], kind) && QueueOK(jobs', Queue(OtherKind(kind)), OtherKind(kind))
              && CallsOK(jobs', calls') && LinksOK(jobs', fwds, cfg) && OthersOK(jobs', fwds, calls', cfg, j)
              && SettledOK(settled, jobs', fwds, cfg, spareGiver.waitEnd)
              && Numbered(jobs', calls', nextJob, nextCall + 1) && Extends(calls, calls')
              && |Holders(jobs')| == |Holders(jobs)| + (if kind.SpareAllowance? then 1 else 0)
    {
      hide QueueOK, LinksOK, CallsOK, OthersOK, Holders, LimitKept, LimitReached, SettledOK, InTurn, BaseOK, StableOK,
           EndedOK, Numbered, Extends;
      FrontWaits(jobs, fwds, calls, cfg, Queue(kind), kind, j);
      var job := WithCall(jobs[x], nextCall);
      HoldersAfter(jobs, x, job);
      FrontNotSettled(settled, jobs, fwds, cfg, spareGiver.waitEnd, concurrencyLevel, kind, x);
      SettledAfter(settled, jobs, fwds, cfg, spareGiver.waitEnd, x, job);
      QueueErase(jobs, Queue(kind), kind, x, job, 0);
      assert Queue(kind)[..0] + Queue(kind)[1..] == Queue(kind)[1..];
      QueueAfter(jobs, Queue(OtherKind(kind)), OtherKind(kind), x, job);
      NumberedFresh(jobs, calls, nextJob, nextCall);
      CallAdded(jobs, calls, nextCall, x, kind);
      LinksAfter(jobs, fwds, cfg, x, job);
      NumberedCall(jobs, calls, nextJob, nextCall, Call(x, kind));
      OthersAfterCallAdded(jobs, fwds, calls, cfg, j, nextCall, x, kind);
      NumberedJob(jobs, calls[nextCall := Call(x, kind)], nextJob, nextCall + 1, x, job);
    }

    /** Resumes the jobs at the front of the list that are ready. */
    method Checkpoint(kind: Kind, ghost j: nat) returns (ghost n: nat)
      requires Draining(kind, j)
      modifies this`jobs, this`calls, this`nextCall, this`concurrencyLevel, this`lastAllowanceStart,
               this`primeGiver, this`spareGiver
      ensures Rest(j)
      ensures jobs.Keys == old(jobs.Keys)
      ensures j in jobs ==> jobs[j] == old(jobs[j])
      ensures kind.SpareAllowance? ==> primeGiver == old(primeGiver)
      ensures Progressed(old(Queue(kind)), n, Queue(kind), kind, old(calls), calls, old(nextCall), nextCall)
      ensures n > 0 <==> old(FrontIsReady(kind))
    {
      hide Rest, Draining, LimitReached, Progressed, Extends, ReadyFor;
      n := 0;
      ProgressStarts(Queue(kind), kind, calls, nextCall);
      while Queue(kind) != []
        invariant Progressed(old(Queue(kind)), n, Queue(kind), kind, old(calls), calls, old(nextCall), nextCall)
        invariant Draining(kind, j)
        invariant jobs.Keys == old(jobs.Keys)
        invariant j in jobs ==> jobs[j] == old(jobs[j])
        invariant kind.SpareAllowance? ==> primeGiver == old(primeGiver)
        invariant if n == 0 then FrontIsReady(kind) == old(FrontIsReady(kind)) else old(FrontIsReady(kind))
        decreases |Queue(kind)|
      {
        var ready := FrontReady(kind, j);
        if !ready {
          return;
        }
        ghost var rest, before, next := Queue(kind), calls, nextCall;
        NotifyFront(kind, j);
        ProgressGoesOn(old(Queue(kind)), n, rest, kind, old(calls), before, old(nextCall), next);
        n := n + 1;
      }
      NobodyLeft(kind, j);
    }

    lemma NobodyLeft(kind: Kind, j: nat)
      requires Draining(kind, j) && Queue(kind) == []
      ensures Rest(j)
    {
      hide QueueOK, LinksOK, OthersOK, CallsOK, Holders, LimitKept, LimitReached, SettledOK, InTurn, Numbered;
    }

    /** Looks whether the front job is ready. */
    method FrontReady(kind: Kind, ghost j: nat) returns (ready: bool)
      requires Draining(kind, j) && Queue(kind) != []
      modifies this`primeGiver, this`spareGiver
      ensures Draining(kind, j) && (!ready ==> Rest(j)) && Queue(kind) == old(Queue(kind))
      ensures ready == old(FrontIsReady(kind))
      ensures kind.SpareAllowance? ==> primeGiver == old(primeGiver) && (ready ==> !LimitReached(cfg, concurrencyLevel))
    {
      hide QueueOK, LinksOK, OthersOK, CallsOK, Holders, LimitKept, LimitReached, SettledOK, Turns, Numbered, Extends;
      FrontWaits(jobs, fwds, calls, cfg, Queue(kind), kind, j);
      ready := ReadyNow(kind, Queue(kind)[0]);
      SettledAwake(settled, jobs, fwds, cfg, old(spareGiver.waitEnd), spareGiver.waitEnd, concurrencyLevel);
    }

    method ForgetAllowance(ghost j: nat)
      requires QueuesOK(jobs) && LevelOK(jobs, 1) && PrimeWakes()
      requires cfg.connectGap <= 0 ==> spareGiver.waitEnd <= 0.0
      requires LinksOK(jobs, fwds, cfg) && OthersOK(jobs, fwds, calls, cfg, j)
      requires j !in spareGiver.queue && SettledStay(jobs) && j !in settled
      modifies this`jobs, this`calls, this`nextCall, this`concurrencyLevel, this`lastAllowanceStart,
               this`primeGiver, this`spareGiver
      ensures Rest(j)
      ensures jobs.Keys == old(jobs.Keys)
      ensures j in jobs ==> jobs[j] == old(jobs[j])
      ensures Extends(old(calls), calls)
    {
      hide QueueOK, LinksOK, OthersOK, CallsOK, Holders, SettledOK, InTurn, LimitKept, Numbered, Extends, CalledInOrder;
      assert concurrencyLevel > 0;
      LimitDown(cfg, concurrencyLevel);
      concurrencyLevel := concurrencyLevel - 1;
      ghost var n := Checkpoint(SpareAllowance, j);
    }

    method JobDroppedAllowance(ghost j: nat)
      requires QueuesOK(jobs) && LevelOK(jobs, 1) && PrimeWakes()
      requires cfg.connectGap <= 0 ==> spareGiver.waitEnd <= 0.0
      requires LinksOK(jobs, fwds, cfg) && OthersOK(jobs, fwds, calls, cfg, j)
      requires j !in spareGiver.queue && SettledStay(jobs) && j !in settled
      modifies this`jobs, this`calls, this`nextCall, this`concurrencyLevel, this`lastAllowanceStart,
               this`primeGiver, this`spareGiver
      ensures Rest(j)
      ensures jobs.Keys == old(jobs.Keys)
      ensures j in jobs ==> jobs[j] == old(jobs[j])
      ensures Extends(old(calls), calls)
    {
      hide QueueOK, LinksOK, OthersOK, CallsOK, Holders, SettledOK, InTurn, LimitKept, Numbered, Extends;
      lastAllowanceStart := 0.0;
      ForgetAllowance(j);
    }

    // --- Assignments to the fields of one job ---

    /** An assignment that does not touch what the enforcers look at. */
    method SetJob(j: nat, job: Job)
      requires Rest(j) && j in jobs && SameIdentity(jobs[j], job)
      requires job.wait == jobs[j].wait && job.permit.gotSpareAllowance == jobs[j].permit.gotSpareAllowance
      modifies this`jobs
      ensures Rest(j) && jobs == old(jobs)[j := job]
    {
      hide FrameOK, Holders, LimitKept;
      SetJobLevel(j, job);
    }

    /** An assignment to the reasons that no enforcer manages. */
    method SetReason(j: nat, job: Job)
      requires Rest(j) && j in jobs && SameIdentity(jobs[j], job) && job.wait.callback == jobs[j].wait.callback
      requires !jobs[j].wait.toGivePrimeItsChance && !jobs[j].wait.forSpareAllowance
      requires !job.wait.toGivePrimeItsChance && !job.wait.forSpareAllowance
      requires job.permit.gotSpareAllowance == jobs[j].permit.gotSpareAllowance
      modifies this`jobs
      ensures Rest(j) && jobs == old(jobs)[j := job]
    {
      hide FrameOK, Holders, LimitKept;
      SetJobLevel(j, job);
    }

    /** An assignment that may change what the job accounts for. */
    method SetJobLevel(j: nat, job: Job)
      requires FrameOK(jobs, j) && j in jobs && SameIdentity(jobs[j], job) && job.wait.callback == jobs[j].wait.callback
      requires jobs[j].life.ended ==> job.permit.gotSpareAllowance == jobs[j].permit.gotSpareAllowance
      requires OnList(job.wait, PrimeChance) == OnList(jobs[j].wait, PrimeChance)
      requires OnList(job.wait, SpareAllowance) == OnList(jobs[j].wait, SpareAllowance)
      modifies this`jobs
      ensures FrameOK(jobs, j) && jobs == old(jobs)[j := job]
      ensures |Holders(jobs)| == |Holders(old(jobs))| - HeldBy(old(jobs)[j]) + HeldBy(job)
    {
      hide Holders, LinksOK, QueueOK, CallsOK, OthersOK, LimitKept, LimitReached, SettledOK, InTurn, Numbered, Extends;
      HoldersAfter(jobs, j, job);
      CallsAfter(jobs, calls, j, job);
      OthersAfter(jobs, fwds, calls, cfg, j, job);
      LinksAfter(jobs, fwds, cfg, j, job);
      QueueAfter(jobs, primeGiver.queue, PrimeChance, j, job);
      QueueAfter(jobs, spareGiver.queue, SpareAllowance, j, job);
      SettledAfter(settled, jobs, fwds, cfg, spareGiver.waitEnd, j, job);
      NumberedJob(jobs, calls, nextJob, nextCall, j, job);
      jobs := jobs[j := job];
    }

    /** The request of a job that is not settled may change. */
    lemma OwnRequest(j: nat, fwd: Fwd)
      requires FrameOK(jobs, j) && Live(j)
      ensures SettledOK(settled, jobs, fwds[jobs[j].setup.fwd := fwd], cfg, spareGiver.waitEnd)
    {
      hide QueueOK, CallsOK, OthersOK, LimitReached, SettledOK, InTurn, Numbered, Extends;
      assert LinkOK(j, jobs[j], fwds);
      OpenerNotSettled(settled, jobs, fwds, cfg, spareGiver.waitEnd, jobs[j].setup.fwd);
      SettledAfterFwd(settled, jobs, fwds, cfg, spareGiver.waitEnd, jobs[j].setup.fwd, fwd);
    }

    method SetPaths(j: nat, dests: Dests, handled: set<nat>)
      requires Rest(j) && j in jobs && !jobs[j].life.ended && jobs[j].setup.fwd in fwds
      requires fwds[jobs[j].setup.fwd].handled <= handled
      modifies this`fwds
      ensures Rest(j)
      ensures fwds == old(fwds)[jobs[j].setup.fwd := old(fwds)[jobs[j].setup.fwd].(dests := dests, handled := handled)]
    {
      hide Holders, QueueOK, CallsOK, LinksOK, OthersOK, LimitKept, LimitReached, SettledOK, InTurn, Numbered, Extends;
      var fwd := fwds[jobs[j].setup.fwd].(dests := dests, handled := handled);
      FwdAfter(jobs, fwds, calls, cfg, j, fwd);
      OwnRequest(j, fwd);
      fwds := fwds[jobs[j].setup.fwd := fwd];
    }

    /** The job received the notification about its destinations. */
    method ClearNotified(j: nat)
      requires Rest(j) && Base(j)
      modifies this`fwds
      ensures Rest(j) && Base(j)
      ensures fwds == old(fwds)[jobs[j].setup.fwd := WithNotified(old(fwds)[jobs[j].setup.fwd], false)]
    {
      hide Holders, QueueOK, CallsOK, LinksOK, OthersOK, LimitKept, LimitReached, BaseOK, SettledOK, InTurn, Numbered,
           Extends;
      var fwd := WithNotified(fwds[jobs[j].setup.fwd], false);
      NoteIrrelevant(jobs[j], fwds[jobs[j].setup.fwd], calls, cfg);
      FwdAfter(jobs, fwds, calls, cfg, j, fwd);
      OwnRequest(j, fwd);
      fwds := fwds[jobs[j].setup.fwd := fwd];
    }

    // --- Ending a spare wait ---

    /** Takes the pending call of the job out of the call queue, because it is
      * canceled or because it fires. */
    method TakeCall(j: nat, job: Job)
      requires FrameOK(jobs, j) && j in jobs && jobs[j].wait.callback.Some?
      requires SameIdentity(jobs[j], job) && job.wait.callback.None?
      requires jobs[j].life.ended ==> job.permit.gotSpareAllowance == jobs[j].permit.gotSpareAllowance
      requires !WaitsFor(job.wait, PrimeChance) && !WaitsFor(job.wait, SpareAllowance)
      modifies this`jobs, this`calls
      ensures FrameOK(jobs, j) && jobs == old(jobs)[j := job]
      ensures calls == old(calls) - {old(jobs)[j].wait.callback.value}
      ensures |Holders(jobs)| == |Holders(old(jobs))| - HeldBy(old(jobs)[j]) + HeldBy(job)
    {
      hide Holders, LinksOK, QueueOK, CallsOK, OthersOK, LimitKept, LimitReached, SettledOK, InTurn, Numbered, Extends;
      var c := jobs[j].wait.callback.value;
      HoldersAfter(jobs, j, job);
      CallHere(jobs, calls, j);
      OthersAfterCallRemoved(jobs, fwds, calls, cfg, j, c);
      CallRemoved(jobs, calls, c, j, job);
      OthersAfter(jobs, fwds, calls - {c}, cfg, j, job);
      LinksAfter(jobs, fwds, cfg, j, job);
      QueueAfter(jobs, primeGiver.queue, PrimeChance, j, job);
      QueueAfter(jobs, spareGiver.queue, SpareAllowance, j, job);
      SettledAfter(settled, jobs, fwds, cfg, spareGiver.waitEnd, j, job);
      NumberedLess(jobs, calls, nextJob, nextCall, c);
      NumberedJob(jobs, calls - {c}, nextJob, nextCall, j, job);
      calls := calls - {c};
      jobs := jobs[j := job];
    }

    /** Dequeuing a job whose call is pending cancels the call. */
    method CancelCall(j: nat, job: Job)
      requires Rest(j) && j in jobs && jobs[j].wait.callback.Some?
      requires SameIdentity(jobs[j], job) && job.wait.callback.None? && Holds(job) == Holds(jobs[j])
      requires jobs[j].life.ended ==> job.permit.gotSpareAllowance == jobs[j].permit.gotSpareAllowance
      requires !WaitsFor(job.wait, PrimeChance) && !WaitsFor(job.wait, SpareAllowance)
      modifies this`jobs, this`calls
      ensures Rest(j) && jobs == old(jobs)[j := job]
      ensures calls == old(calls) - {old(jobs)[j].wait.callback.value}
    {
      hide FrameOK, Holders, LimitKept;
      TakeCall(j, job);
    }

    /** Dequeuing a job without a pending call erases it from its position on the
      * list; the order of the others stays. */
    method EraseFromList(kind: Kind, j: nat, job: Job) returns (at: nat)
      requires Rest(j) && j in jobs && OnList(jobs[j].wait, kind) && !OnList(jobs[j].wait, OtherKind(kind))
      requires SameIdentity(jobs[j], job) && job.wait.callback.None? && Holds(job) == Holds(jobs[j])
      requires jobs[j].life.ended ==> job.permit.gotSpareAllowance == jobs[j].permit.gotSpareAllowance
      requires !WaitsFor(job.wait, PrimeChance) && !WaitsFor(job.wait, SpareAllowance)
      modifies this`jobs, this`primeGiver, this`spareGiver
      ensures Rest(j) && jobs == old(jobs)[j := job]
      ensures at < |old(Queue(kind))| && old(Queue(kind))[at] == j && |old(Giver(kind)).tickets| == |old(Queue(kind))|
      ensures Giver(kind) == Leave(old(Giver(kind)), at) && Giver(OtherKind(kind)) == old(Giver(OtherKind(kind)))
    {
      hide Holders, LinksOK, QueueOK, CallsOK, OthersOK, LimitKept, LimitReached, SettledOK, InTurn, Numbered, Extends;
      HoldersAfter(jobs, j, job);
      CallsAfter(jobs, calls, j, job);
      OthersAfter(jobs, fwds, calls, cfg, j, job);
      LinksAfter(jobs, fwds, cfg, j, job);
      SettledAfter(settled, jobs, fwds, cfg, spareGiver.waitEnd, j, job);
      OnQueue(jobs, Queue(kind), kind, j);
      var q := Queue(kind);
      at :| 0 <= at < |q| && q[at] == j;
      QueueErase(jobs, q, kind, j, job, at);
      QueueAfter(jobs, Queue(OtherKind(kind)), OtherKind(kind), j, job);
      TurnLeave(Giver(kind), at);
      SetGiver(kind, Leave(Giver(kind), at));
      NumberedJob(jobs, calls, nextJob, nextCall, j, job);
      jobs := jobs[j := job];
    }

    method StopGivingPrimeItsChance(j: nat)
      requires Rest(j) && j in jobs && jobs[j].wait.toGivePrimeItsChance && !jobs[j].wait.forSpareAllowance
      modifies this`jobs, this`calls, this`primeGiver, this`spareGiver
      ensures Rest(j) && jobs == old(jobs)[j := WithoutFlag(old(jobs[j]), PrimeChance)]
    {
      hide Rest;
      var job := WithoutFlag(jobs[j], PrimeChance);
      if jobs[j].wait.callback.Some? {
        CancelCall(j, job);
      } else {
        var at := EraseFromList(PrimeChance, j, job);
      }
    }

    method StopWaitingForSpareAllowance(j: nat)
      requires Rest(j) && j in jobs && !jobs[j].wait.toGivePrimeItsChance && jobs[j].wait.forSpareAllowance
      requires !jobs[j].permit.gotSpareAllowance
      modifies this`jobs, this`calls, this`nextCall, this`concurrencyLevel, this`lastAllowanceStart,
               this`primeGiver, this`spareGiver
      ensures Rest(j) && jobs.Keys == old(jobs.Keys)
      ensures jobs[j] == WithoutFlag(old(jobs[j]), SpareAllowance)
    {
      hide Rest;
      if jobs[j].wait.callback.Some? {
        DropPendingAllowance(j);
      } else {
        var at := EraseFromList(SpareAllowance, j, WithoutFlag(jobs[j], SpareAllowance));
      }
    }

    /** Ends the wait for an allowance that is already on its way to the job. */
    method DropPendingAllowance(j: nat)
      requires Rest(j) && j in jobs && !jobs[j].wait.toGivePrimeItsChance && PendingAllowance(jobs[j])
      requires !jobs[j].permit.gotSpareAllowance
      modifies this`jobs, this`calls, this`nextCall, this`concurrencyLevel, this`lastAllowanceStart,
               this`primeGiver, this`spareGiver
      ensures Rest(j) && jobs.Keys == old(jobs.Keys)
      ensures jobs[j] == WithoutFlag(old(jobs[j]), SpareAllowance)
    {
      hide Holders, QueueOK, CallsOK, LinksOK, OthersOK, LimitKept, LimitReached, SettledOK, InTurn, Numbered, Extends;
      var job := WithoutFlag(jobs[j], SpareAllowance);
      SetJobLevel(j, jobs[j].(wait := ClearFlag(jobs[j].wait, SpareAllowance)));
      NotQueued(jobs, spareGiver.queue, SpareAllowance, j);
      JobDroppedAllowance(j);
      CancelCall(j, job);
    }

    /** Stops waiting for the right conditions to open a spare connection. */
    method CancelSpareWait(j: nat)
      requires Rest(j) && Base(j) && Waiting(jobs[j].wait)
      modifies this`jobs, this`calls, this`nextCall, this`concurrencyLevel, this`lastAllowanceStart,
               this`primeGiver, this`spareGiver
      ensures Rest(j) && jobs.Keys == old(jobs.Keys)
      ensures jobs[j] == ClearWait(old(jobs[j]))
      ensures !old(jobs)[j].wait.forSpareAllowance ==>
                concurrencyLevel == old(concurrencyLevel) && lastAllowanceStart == old(lastAllowanceStart)
    {
      hide Rest, PathsOK, AnswersOK, TriesOK, HaveSpare;
      if jobs[j].wait.toGivePrimeItsChance {
        StopGivingPrimeItsChance(j);
      } else if jobs[j].wait.forSpareAllowance {
        StopWaitingForSpareAllowance(j);
      } else {
        SetReason(j, ClearWait(jobs[j]));
      }
    }

    // --- Whether to go on ---

    /** Checks the attempt and time limits; a limit once reached stays reached. */
    method CheckRanOut(j: nat) returns (out: bool)
      requires Rest(j) && j in jobs
      modifies this`jobs
      ensures Rest(j)
      ensures out == RanOut(old(jobs)[j], cfg, curtime)
      ensures jobs == old(jobs)[j := old(jobs)[j].(ranOut := out)]
    {
      hide Rest, RanOut;
      out := RanOut(jobs[j], cfg, curtime);
      SetJob(j, jobs[j].(ranOut := out));
    }

    method Done(j: nat) returns (done: bool)
      requires Rest(j) && j in jobs && jobs[j].setup.fwd in fwds
      modifies this`jobs
      ensures Rest(j)
      ensures done == DoneAll(old(jobs)[j], old(At(j)).fwd.dests, cfg, curtime)
      ensures jobs == old(jobs) || jobs == old(jobs)[j := old(jobs)[j].(ranOut := RanOut(old(jobs)[j], cfg, curtime))]
      ensures !done || old(jobs)[j].life.stopped || !old(jobs)[j].client.hasCallback || old(jobs)[j].client.canceled ==>
                jobs == old(jobs)
      ensures done && !old(jobs)[j].life.stopped && old(jobs)[j].client.hasCallback && !old(jobs)[j].client.canceled ==>
                jobs == old(jobs)[j := old(jobs)[j].(ranOut := RanOut(old(jobs)[j], cfg, curtime))]
    {
      hide Rest, RanOut, Empty;
      if jobs[j].life.stopped || !jobs[j].client.hasCallback || jobs[j].client.canceled {
        return true;
      }
      if jobs[j].prime.Connecting? || jobs[j].spare.Connecting? {
        return false;
      }
      AttemptsLeft(jobs[j], cfg, curtime);
      var out := CheckRanOut(j);
      if out {
        return true;
      }
      assert old(jobs)[j].(ranOut := out) == old(jobs)[j];
      var d := fwds[jobs[j].setup.fwd].dests;
      return Empty(d) && d.finalized;
    }

    // --- Attempts ---

    /** An assignment that moves paths between the job and its request. */
    method SetWork(j: nat, w: Work)
      requires Rest(j) && Live(j) && Moved(At(j), w) && BaseOK(w.job, w.fwd, calls, cfg)
      modifies this`jobs, this`fwds
      ensures Rest(j) && Base(j) && At(j) == w && Touches(old(Books()), Books(), j)
    {
      hide Rest, BaseOK, Touches;
      ghost var was := Books();
      SetPaths(j, w.fwd.dests, w.fwd.handled);
      SetJob(j, w.job);
      TouchesOnly(was, Books(), j, w.fwd);
    }

    /** Takes the path and starts opening (or reuses) a connection on the prime track. */
    method StartPrime(j: nat, pos: nat, pconn: bool)
      requires Rest(j) && Base(j) && MayConnect(jobs[j], fwds[jobs[j].setup.fwd], calls, cfg, pos)
      requires jobs[j].prime.Idle?
      requires Waiting(jobs[j].wait) ==>
                 fwds[jobs[j].setup.fwd].dests.slots[pos].path == jobs[j].currentPeer.value
      modifies this`jobs, this`fwds
      ensures Rest(j) && Base(j) && At(j) == PrimeOn(old(At(j)), pos, pconn) && Touches(old(Books()), Books(), j)
    {
      hide Rest, BaseOK, ConnectPrime, ConnectFwd, Moved, Touches;
      PrimeStarted(jobs[j], fwds[jobs[j].setup.fwd], calls, cfg, pos, Reuses(At(j), pos, pconn));
      PrimeOnMoves(At(j), pos, pconn);
      SetWork(j, PrimeOn(At(j), pos, pconn));
    }

    /** Takes the path and starts opening (or reuses) a connection on the spare track. */
    method StartSpare(j: nat, pos: nat, pconn: bool)
      requires Rest(j) && Live(j)
      requires MayConnect(WithGot(jobs[j], false), fwds[jobs[j].setup.fwd], calls, cfg, pos)
      requires jobs[j].spare.Idle? && !Waiting(jobs[j].wait)
      modifies this`jobs, this`fwds
      ensures Rest(j) && Base(j) && At(j) == SpareOn(old(At(j)), pos, pconn) && Touches(old(Books()), Books(), j)
    {
      hide Rest, BaseOK, ConnectSpare, ConnectFwd, Moved, Touches;
      SpareStarted(jobs[j], fwds[jobs[j].setup.fwd], calls, cfg, pos, Reuses(At(j), pos, pconn));
      SpareOnMoves(At(j), pos, pconn);
      SetWork(j, SpareOn(At(j), pos, pconn));
    }

    // --- Starting a spare wait ---

    /** ReadyNow leaves everything else as it was. */
    method CheckReady(kind: Kind, j: nat) returns (ready: bool)
      requires Rest(j) && j in jobs
      modifies this`primeGiver, this`spareGiver
      ensures Rest(j) && ready == old(ReadyFor(kind, j))
      ensures kind.PrimeChance? ==> ready || primeGiver.waitEnd > 0.0
      ensures kind.SpareAllowance? && ready ==> !LimitReached(cfg, concurrencyLevel)
      ensures kind.SpareAllowance? && !ready ==> LimitReached(cfg, concurrencyLevel) || spareGiver.waitEnd > 0.0
    {
      hide QueueOK, LinksOK, CallsOK, OthersOK, Holders, LimitKept, LimitReached, SettledOK, Turns, ReadyFor, Numbered,
           Extends;
      ready := ReadyNow(kind, j);
      SettledAwake(settled, jobs, fwds, cfg, old(spareGiver.waitEnd), spareGiver.waitEnd, concurrencyLevel);
    }

    /** Starts managing the wait of the job, which should expect a call back: the
      * job joins the end of the list. */
    method Enqueue(kind: Kind, j: nat)
      requires Rest(j) && j in jobs && jobs[j].wait == NoWait && !jobs[j].permit.gotSpareAllowance
      requires kind.PrimeChance? ==> primeGiver.waitEnd > 0.0
      requires kind.SpareAllowance? ==> LimitReached(cfg, concurrencyLevel) || spareGiver.waitEnd > 0.0
      modifies this`jobs, this`primeGiver, this`spareGiver
      ensures Rest(j) && jobs == old(jobs)[j := old(jobs)[j].(wait := Managed(kind))]
      ensures Giver(kind) == Join(old(Giver(kind)), j) && Giver(OtherKind(kind)) == old(Giver(OtherKind(kind)))
    {
      hide QueueOK, LinksOK, CallsOK, OthersOK, Holders, LimitKept, LimitReached, SettledOK, InTurn, Numbered, Extends;
      var job := jobs[j].(wait := Managed(kind));
      HoldersAfter(jobs, j, job);
      CallsAfter(jobs, calls, j, job);
      OthersAfter(jobs, fwds, calls, cfg, j, job);
      LinksAfter(jobs, fwds, cfg, j, job);
      SettledAfter(settled, jobs, fwds, cfg, spareGiver.waitEnd, j, job);
      NotQueued(jobs, Queue(kind), kind, j);
      QueuePush(jobs, Queue(kind), kind, j, job);
      QueueAfter(jobs, Queue(OtherKind(kind)), OtherKind(kind), j, job);
      TurnJoin(Giver(kind), j);
      SetGiver(kind, Join(Giver(kind), j));
      NumberedJob(jobs, calls, nextJob, nextCall, j, job);
      jobs := jobs[j := job];
    }

    /** Starts waiting for a spare permission if spare connections may be possible. */
    method MaybeGivePrimeItsChance(j: nat)
      requires Rest(j) && Base(j) && jobs[j].prime.Connecting? && jobs[j].spare.Idle?
      requires jobs[j].wait == NoWait && !jobs[j].permit.gotSpareAllowance && jobs[j].currentPeer.Some?
      modifies this`jobs, this`primeGiver, this`spareGiver
      ensures Rest(j) && Base(j)
      ensures jobs.Keys == old(jobs.Keys)
      ensures var job := old(jobs)[j];
              jobs[j] == job.(wait := ChanceWait(fwds[job.setup.fwd].dests, job.currentPeer.value, job.primeStart, now, cfg))
    {
      hide Rest, BaseOK, DoneWithSpares, Pausing, SpareReady;
      var job := jobs[j];
      var fwd := fwds[job.setup.fwd];
      if DoneWithSpares(fwd.dests, job.currentPeer.value) {
        StartWait(j, NoWait.(forNewPeer := true));
        return;
      }
      if cfg.connectLimit == 0 {
        StartWait(j, NoWait.(forPrimesToFail := true));
        return;
      }
      var ready := CheckReady(PrimeChance, j);
      if ready {
        return;
      }
      PeerKnown(job, fwd, calls, cfg);
      WaitStarted(job, fwd, calls, cfg, Managed(PrimeChance));
      Enqueue(PrimeChance, j);
    }

    /** A wait that no enforcer manages. */
    method StartWait(j: nat, wait: SpareWait)
      requires Rest(j) && Base(j) && InFlight(jobs[j]) > 0 && jobs[j].spare.Idle?
      requires jobs[j].wait == NoWait && !jobs[j].permit.gotSpareAllowance && jobs[j].currentPeer.Some?
      requires || (wait == NoWait.(forNewPeer := true) && DoneWithSpares(fwds[jobs[j].setup.fwd].dests, jobs[j].currentPeer.value))
               || (wait == NoWait.(forPrimesToFail := true) && cfg.connectLimit == 0)
      modifies this`jobs
      ensures Rest(j) && Base(j) && jobs.Keys == old(jobs.Keys) && jobs[j] == old(jobs)[j].(wait := wait)
    {
      hide Rest, BaseOK, DoneWithSpares;
      PeerKnown(jobs[j], fwds[jobs[j].setup.fwd], calls, cfg);
      WaitStarted(jobs[j], fwds[jobs[j].setup.fwd], calls, cfg, wait);
      SetReason(j, jobs[j].(wait := wait));
    }

    // --- Opening connections ---

    /** A job that still owes an answer works on a peer and gives only a running prime its chance. */
    predicate Progress(j: nat)
      requires j in jobs
      reads this
    {
      jobs[j].client.hasCallback ==>
        jobs[j].currentPeer.Some? && (jobs[j].wait.toGivePrimeItsChance ==> jobs[j].prime.Connecting?)
    }

    /** Starts a prime connection attempt if possible or does nothing otherwise. */
    method MaybeOpenPrimeConnection(j: nat, pconn: bool)
      requires Rest(j) && Base(j) && jobs[j].prime.Idle? && jobs[j].life.started && jobs[j].client.hasCallback
      requires !jobs[j].life.stopped && !jobs[j].client.canceled
      requires jobs[j].nTries < cfg.forwardMaxTries && !jobs[j].wait.toGivePrimeItsChance
      requires jobs[j].currentPeer.None? ==>
                 && jobs[j].spare.Idle? && jobs[j].wait == NoWait && !jobs[j].permit.gotSpareAllowance
                 && !Empty(fwds[jobs[j].setup.fwd].dests)
      modifies this`jobs, this`fwds, this`primeGiver, this`spareGiver
      ensures Rest(j) && Base(j) && Touches(old(Books()), Books(), j)
      ensures At(j) == PrimeOpened(old(At(j)), old(Around(pconn, false)))
    {
      hide Rest, BaseOK, SpareReady, FindPrime, ToNewPeer, PrimeOn, Touches, Empty;
      TouchesOnly(Books(), Books(), j, fwds[jobs[j].setup.fwd]);
      var d := fwds[jobs[j].setup.fwd].dests;
      if Empty(d) {
        return;
      }
      if jobs[j].currentPeer.None? {
        OpenPrimeToNewPeer(j, pconn);
        return;
      }
      var f := FindPrime(d, jobs[j].currentPeer.value);
      if f.pos < |d.slots| {
        StartPrime(j, f.pos, pconn);
      }
    }

    /** The job turns to the given peer. */
    method MeetPeer(j: nat, peer: Option<Path>)
      requires Rest(j) && Base(j) && jobs[j].prime.Idle? && jobs[j].spare.Idle? && jobs[j].wait == NoWait
      modifies this`jobs
      ensures Rest(j) && Base(j) && jobs.Keys == old(jobs.Keys)
      ensures jobs[j] == old(jobs)[j].(currentPeer := peer, primeStart := now)
    {
      hide Rest, BaseOK;
      var job := jobs[j];
      PeerChanged(job, fwds[job.setup.fwd], calls, cfg, peer, now, job.permit.ignoreSpareRestrictions);
      SetJob(j, WithPeer(job, peer, now, job.permit.ignoreSpareRestrictions));
    }

    method OpenPrimeToNewPeer(j: nat, pconn: bool)
      requires Rest(j) && Base(j) && jobs[j].prime.Idle? && jobs[j].life.started && jobs[j].client.hasCallback
      requires !jobs[j].life.stopped && !jobs[j].client.canceled
      requires jobs[j].nTries < cfg.forwardMaxTries
      requires jobs[j].spare.Idle? && jobs[j].wait == NoWait && !jobs[j].permit.gotSpareAllowance
      requires !Empty(fwds[jobs[j].setup.fwd].dests)
      modifies this`jobs, this`fwds, this`primeGiver, this`spareGiver
      ensures Rest(j) && Base(j) && Touches(old(Books()), Books(), j)
      ensures At(j) == ToNewPeer(old(At(j)), old(Around(pconn, false)))
    {
      hide Rest, BaseOK, SpareReady, ChanceWait, DoneAll, PrimeOn, Touches, FirstAvailable, CanReuse;
      ghost var was := Books();
      var fwd := fwds[jobs[j].setup.fwd];
      var pos := FirstAvailable(fwd.dests.slots);
      var peer := Some(fwd.dests.slots[pos].path);
      MeetPeer(j, peer);
      TouchesOnly(was, Books(), j, fwd);
      PrimeOnKeeps(At(j), pos, pconn);
      ghost var met := Books();
      StartPrime(j, pos, pconn);
      TouchesChain(was, met, Books(), j);
      BusyOrDone(jobs[j], fwds[jobs[j].setup.fwd].dests, cfg, curtime);
      var done := Done(j);
      if done {
        return;
      }
      met := Books();
      MaybeGivePrimeItsChance(j);
      TouchesOnly(met, Books(), j, fwd);
      TouchesChain(was, met, Books(), j);
    }

    /** Records an allowance that the job found ready for the taking. */
    method JobGotInstantAllowance(j: nat)
      requires Rest(j) && j in jobs && !jobs[j].life.ended && jobs[j].wait == NoWait
      requires !jobs[j].permit.gotSpareAllowance
      requires !LimitReached(cfg, concurrencyLevel)
      modifies this`jobs, this`concurrencyLevel, this`lastAllowanceStart
      ensures Rest(j) && jobs == old(jobs)[j := WithGot(old(jobs)[j], true)]
    {
      hide QueueOK, LinksOK, CallsOK, OthersOK, Holders, LimitKept, SettledOK, InTurn, Numbered, Extends;
      LimitUp(cfg, concurrencyLevel);
      LimitStays(cfg, concurrencyLevel);
      SetJobLevel(j, WithGot(jobs[j], true));
      RecordAllowance();
    }

    /** If possible, starts a spare connection attempt. */
    method MaybeOpenSpareConnection(j: nat, pconn: bool)
      requires Rest(j) && Base(j) && jobs[j].spare.Idle? && jobs[j].life.started && jobs[j].client.hasCallback
      requires jobs[j].currentPeer.Some? && !RanOut(jobs[j], cfg, curtime)
      modifies this`jobs, this`fwds, this`primeGiver, this`spareGiver, this`concurrencyLevel, this`lastAllowanceStart
      ensures Rest(j) && Base(j) && Touches(old(Books()), Books(), j)
      ensures At(j) == SpareOpened(old(At(j)), old(Around(false, pconn)))
    {
      hide Rest, BaseOK, RanOut, HaveSpare, SpareReady, SpareOpened, Touches;
      TouchesOnly(Books(), Books(), j, fwds[jobs[j].setup.fwd]);
      NoAllowance(jobs[j], fwds[jobs[j].setup.fwd], calls, cfg);
      if Waiting(jobs[j].wait) {
        SpareNotWanted(At(j), Around(false, pconn));
        return;
      }
      NotWaiting(jobs[j], fwds[jobs[j].setup.fwd], calls, cfg);
      CacheUnused(jobs[j], cfg, curtime);
      AttemptsLeft(jobs[j], cfg, curtime);
      var out := CheckRanOut(j);
      Unchanged(old(jobs), j);
      OpenSpareNow(j, pconn);
    }

    method OpenSpareNow(j: nat, pconn: bool)
      requires Rest(j) && Base(j) && jobs[j].spare.Idle? && jobs[j].life.started && jobs[j].client.hasCallback
      requires jobs[j].currentPeer.Some? && jobs[j].wait == NoWait && !jobs[j].permit.gotSpareAllowance
      requires jobs[j].nTries < cfg.forwardMaxTries
      modifies this`jobs, this`fwds, this`primeGiver, this`spareGiver, this`concurrencyLevel, this`lastAllowanceStart
      ensures Rest(j) && Base(j) && Touches(old(Books()), Books(), j)
      ensures At(j) == SpareOpened(old(At(j)), old(Around(false, pconn)))
    {
      hide Rest, BaseOK, LimitReached, SpareReady, Empty, SpareOn, Touches, HaveSpare, FindSpare;
      ghost var was := Books();
      TouchesOnly(was, was, j, fwds[jobs[j].setup.fwd]);
      var fwd := fwds[jobs[j].setup.fwd];
      var cur := jobs[j].currentPeer.value;
      if HaveSpare(fwd.dests, cur) { SpareKeepsPeer(fwd.dests, cur); }
      if Empty(fwd.dests) {
        return;
      }
      if !jobs[j].permit.ignoreSpareRestrictions {
        var ready := CheckReady(SpareAllowance, j);
        if HaveSpare(fwd.dests, cur) {
          if !ready {
            WaitStarted(jobs[j], fwd, calls, cfg, Managed(SpareAllowance));
            Enqueue(SpareAllowance, j);
            TouchesOnly(was, Books(), j, fwd);
          } else {
            OpenAllowedSpare(j, pconn);
          }
        }
      } else if HaveSpare(fwd.dests, cur) {
        SpareThere(fwd.dests, cur);
        assert WithGot(jobs[j], false) == jobs[j];
        StartSpare(j, FindSpare(fwd.dests, cur).pos, pconn);
      }
    }

    method OpenAllowedSpare(j: nat, pconn: bool)
      requires Rest(j) && Base(j) && jobs[j].spare.Idle? && jobs[j].life.started && jobs[j].client.hasCallback
      requires jobs[j].currentPeer.Some? && jobs[j].wait == NoWait && !jobs[j].permit.gotSpareAllowance
      requires jobs[j].nTries < cfg.forwardMaxTries && !LimitReached(cfg, concurrencyLevel)
      requires HaveSpare(fwds[jobs[j].setup.fwd].dests, jobs[j].currentPeer.value)
      modifies this`jobs, this`fwds, this`concurrencyLevel, this`lastAllowanceStart
      ensures Rest(j) && Base(j) && Touches(old(Books()), Books(), j)
      ensures var was := old(At(j));
              At(j) == SpareOn(was.(job := WithGot(was.job, true)),
                               FindSpare(was.fwd.dests, was.job.currentPeer.value).pos, pconn)
    {
      hide Rest, BaseOK, LimitReached, SpareOn, Touches, FindSpare;
      ghost var was := Books();
      var job, fwd := jobs[j], fwds[jobs[j].setup.fwd];
      JobGotInstantAllowance(j);
      TouchesOnly(was, Books(), j, fwd);
      ghost var allowed := Books();
      assert WithGot(jobs[j], false) == job;
      StartSpare(j, FindSpare(fwd.dests, job.currentPeer.value).pos, pconn);
      TouchesChain(was, allowed, Books(), j);
    }

    /** Reacts to any change in initiator interest, destinations, attempts or waits. */
    method CheckForNewConnection(j: nat, pconnPrime: bool, pconnSpare: bool) returns (threw: bool)
      requires Rest(j) && Base(j) && jobs[j].life.started && jobs[j].client.hasCallback && !jobs[j].life.stopped
      requires jobs[j].wait.toGivePrimeItsChance ==> jobs[j].prime.Connecting?
      requires jobs[j].currentPeer.None? ==> !Empty(fwds[jobs[j].setup.fwd].dests)
      modifies this`jobs, this`fwds, this`calls, this`nextCall, this`primeGiver, this`spareGiver,
               this`concurrencyLevel, this`lastAllowanceStart
      ensures Rest(j) && Base(j) && Touches(old(Books()), Books(), j)
      ensures threw <==> ChecksFail(old(jobs)[j], old(fwds[jobs[j].setup.fwd].dests), cfg, curtime)
      ensures At(j) == if threw then old(At(j)) else Checked(old(At(j)), old(Around(pconnPrime, pconnSpare)))
      ensures jobs[j].life.started && !jobs[j].life.stopped
      ensures || threw || DoneAll(jobs[j], fwds[jobs[j].setup.fwd].dests, cfg, curtime)
              || (Progress(j) && Active(jobs[j], fwds[jobs[j].setup.fwd]))
    {
      hide Rest, BaseOK, RanOut, DoneAll, Empty, SpareReady, DoneWithPeer, Opened, Refreshed, Touches, ChecksFail;
      ghost var was := Books();
      PeerKnown(jobs[j], fwds[jobs[j].setup.fwd], calls, cfg);
      if DoneAll(jobs[j], fwds[jobs[j].setup.fwd].dests, cfg, curtime) || RanOut(jobs[j], cfg, curtime) {
        StopsOrWorks(At(j), Around(pconnPrime, pconnSpare));
      }
      WorksOn(jobs[j], fwds[jobs[j].setup.fwd].dests, cfg, curtime);
      var stop := NothingToStart(j);
      TouchesOnly(was, Books(), j, fwds[jobs[j].setup.fwd]);
      if stop {
        return false;
      }
      threw := UpdateStaleState(j);
      TouchesOnly(was, Books(), j, fwds[jobs[j].setup.fwd]);
      if threw {
        return;
      }
      ghost var fresher := Books();
      OpenConnections(j, pconnPrime, pconnSpare);
      TouchesChain(was, fresher, Books(), j);
    }

    /** Whether the job is done or has run out of time or attempts. */
    method NothingToStart(j: nat) returns (stop: bool)
      requires Rest(j) && Base(j) && jobs[j].client.hasCallback && !jobs[j].life.stopped
      modifies this`jobs
      ensures Rest(j) && Base(j)
      ensures stop <==>
                || DoneAll(old(jobs)[j], old(At(j)).fwd.dests, cfg, curtime)
                || RanOut(old(jobs)[j], cfg, curtime)
      ensures jobs == if old(jobs)[j].client.canceled then old(jobs)
                      else old(jobs)[j := old(jobs)[j].(ranOut := RanOut(old(jobs)[j], cfg, curtime))]
      ensures !stop ==> jobs == old(jobs) && jobs[j].nTries < cfg.forwardMaxTries && !jobs[j].client.canceled
    {
      hide Rest, BaseOK, RanOut, Empty;
      var job := jobs[j];
      CacheIrrelevant(job, fwds[job.setup.fwd], calls, cfg, RanOut(job, cfg, curtime));
      AttemptsLeft(job, cfg, curtime);
      if !RanOut(job, cfg, curtime) { CacheUnused(job, cfg, curtime); }
      Unchanged(jobs, j);
      stop := Done(j);
      if !stop {
        stop := CheckRanOut(j);
      }
    }

    method OpenConnections(j: nat, pconnPrime: bool, pconnSpare: bool)
      requires Rest(j) && Base(j) && jobs[j].life.started && jobs[j].client.hasCallback && !jobs[j].life.stopped
      requires !jobs[j].client.canceled
      requires jobs[j].wait.toGivePrimeItsChance ==> jobs[j].prime.Connecting?
      requires !RanOut(jobs[j], cfg, curtime)
      requires jobs[j].currentPeer.None? ==>
                 && jobs[j].prime.Idle? && jobs[j].spare.Idle? && jobs[j].wait == NoWait
                 && !jobs[j].permit.gotSpareAllowance
                 && !Empty(fwds[jobs[j].setup.fwd].dests)
      requires jobs[j].currentPeer.Some? && InFlight(jobs[j]) == 0 ==>
                 !DoneWithPeer(fwds[jobs[j].setup.fwd].dests, jobs[j].currentPeer.value)
      modifies this`jobs, this`fwds, this`primeGiver, this`spareGiver, this`concurrencyLevel, this`lastAllowanceStart
      ensures Rest(j) && Base(j) && Touches(old(Books()), Books(), j)
      ensures At(j) == Opened(old(At(j)), old(Around(pconnPrime, pconnSpare)))
      ensures jobs[j].life.started && !jobs[j].life.stopped
      ensures || DoneAll(jobs[j], fwds[jobs[j].setup.fwd].dests, cfg, curtime)
              || (Progress(j) && Active(jobs[j], fwds[jobs[j].setup.fwd]))
    {
      hide Rest, BaseOK, RanOut, Empty, DoneWithPeer, DoneAll, Active, SpareReady, FindPrime, PrimeOpened, SpareOpened,
           Touches;
      ghost var was := Books();
      var m := Around(pconnPrime, pconnSpare);
      TouchesOnly(was, was, j, fwds[jobs[j].setup.fwd]);
      AttemptsLeft(jobs[j], cfg, curtime);
      if jobs[j].prime.Idle? {
        PrimeLeft(At(j), m);
        PconnFlags(At(j), Around(pconnPrime, false), pconnSpare);
        MaybeOpenPrimeConnection(j, pconnPrime);
      }
      ghost var primed := Books();
      PconnFlags(At(j), Around(false, pconnSpare), pconnPrime);
      OpenSpareToo(j, pconnSpare);
      TouchesChain(was, primed, Books(), j);
    }

    /** The prime track is busy, or it has nothing to try now. */
    method OpenSpareToo(j: nat, pconnSpare: bool)
      requires Rest(j) && Base(j) && jobs[j].life.started && !jobs[j].life.stopped && !jobs[j].client.canceled
      requires jobs[j].client.hasCallback ==> AtWork(At(j), cfg, curtime)
      modifies this`jobs, this`fwds, this`primeGiver, this`spareGiver, this`concurrencyLevel, this`lastAllowanceStart
      ensures Rest(j) && Base(j) && Touches(old(Books()), Books(), j)
      ensures At(j) == SpareOpened(old(At(j)), old(Around(false, pconnSpare)))
      ensures jobs[j].life.started && !jobs[j].life.stopped
      ensures || DoneAll(jobs[j], fwds[jobs[j].setup.fwd].dests, cfg, curtime)
              || (Progress(j) && Active(jobs[j], fwds[jobs[j].setup.fwd]))
    {
      hide Rest, BaseOK, RanOut, Empty, HaveSpare, DoneWithPeer, FindPrime, Active, SpareReady, SpareOpened, DoneAll,
           Touches;
      var was, m := At(j), Around(false, pconnSpare);
      TouchesOnly(Books(), Books(), j, was.fwd);
      SpareKeeps(was, m);
      DoneMeans(was, cfg, curtime);
      Unchanged(jobs, j);
      if jobs[j].spare.Connecting? {
        SpareNotWanted(was, m);
        SpareLeft(was, m, calls);
        return;
      }
      var done := Done(j);
      if done {
        SpareNotWanted(was, m);
        return;
      }
      MaybeOpenSpareConnection(j, pconnSpare);
      SpareLeft(was, m, calls);
    }

    /** Forgets a peer that is over, and a wait for spares that are not coming. */
    method UpdateStaleState(j: nat) returns (threw: bool)
      requires Rest(j) && Base(j) && jobs[j].life.started && jobs[j].client.hasCallback && !jobs[j].life.stopped
      requires !jobs[j].client.canceled
      requires jobs[j].wait.toGivePrimeItsChance ==> jobs[j].prime.Connecting?
      requires jobs[j].currentPeer.None? ==> !Empty(fwds[jobs[j].setup.fwd].dests)
      requires !DoneAll(jobs[j], fwds[jobs[j].setup.fwd].dests, cfg, curtime) && !RanOut(jobs[j], cfg, curtime)
      modifies this`jobs, this`calls, this`nextCall, this`primeGiver, this`spareGiver,
               this`concurrencyLevel, this`lastAllowanceStart
      ensures Rest(j) && Base(j) && jobs.Keys == old(jobs.Keys)
      ensures concurrencyLevel == old(concurrencyLevel) && lastAllowanceStart == old(lastAllowanceStart)
      ensures threw <==> ChecksFail(old(jobs)[j], old(At(j)).fwd.dests, cfg, curtime)
      ensures At(j) == if threw then old(At(j)) else Refreshed(old(At(j)))
      ensures jobs[j].life.started && jobs[j].client.hasCallback && !jobs[j].life.stopped && !jobs[j].client.canceled
      ensures jobs[j].setup == old(jobs)[j].setup && !RanOut(jobs[j], cfg, curtime)
      ensures jobs[j].wait.toGivePrimeItsChance ==> jobs[j].prime.Connecting?
      ensures !threw && jobs[j].currentPeer.None? ==>
                && jobs[j].prime.Idle? && jobs[j].spare.Idle? && jobs[j].wait == NoWait
                && !jobs[j].permit.gotSpareAllowance
                && !Empty(fwds[jobs[j].setup.fwd].dests)
      ensures !threw && jobs[j].currentPeer.Some? && InFlight(jobs[j]) == 0 ==>
                !DoneWithPeer(fwds[jobs[j].setup.fwd].dests, jobs[j].currentPeer.value)
    {
      hide Rest, BaseOK, DoneWithPeer, DoneWithSpares, Empty;
      threw := false;
      var job := jobs[j];
      var fwd := fwds[job.setup.fwd];
      PeerKnown(job, fwd, calls, cfg);
      if job.currentPeer.None? {
        NotWaiting(job, fwd, calls, cfg);
        NoAllowance(job, fwd, calls, cfg);
      } else if job.spare.Idle? && job.prime.Idle? && DoneWithPeer(fwd.dests, job.currentPeer.value) {
        NextPeerThere(job, fwd.dests, cfg, curtime, job.currentPeer.value);
        if Waiting(job.wait) && !job.wait.forNewPeer {
          return true;
        }
        ForgetPeer(j);
      } else if !job.wait.forNewPeer && Waiting(job.wait) && DoneWithSpares(fwd.dests, job.currentPeer.value) {
        WaitForNewPeer(j);
      }
    }

    method ForgetPeer(j: nat)
      requires Rest(j) && Base(j) && jobs[j].client.hasCallback && InFlight(jobs[j]) == 0
      requires Waiting(jobs[j].wait) ==> jobs[j].wait.forNewPeer
      modifies this`jobs, this`calls, this`nextCall, this`primeGiver, this`spareGiver,
               this`concurrencyLevel, this`lastAllowanceStart
      ensures Rest(j) && Base(j) && jobs.Keys == old(jobs.Keys) && !jobs[j].permit.gotSpareAllowance
      ensures concurrencyLevel == old(concurrencyLevel) && lastAllowanceStart == old(lastAllowanceStart)
      ensures jobs[j] == WithPeer(ClearWait(old(jobs)[j]), None, old(jobs)[j].primeStart, false)
    {
      hide Rest, BaseOK;
      NoAllowance(jobs[j], fwds[jobs[j].setup.fwd], calls, cfg);
      var job := jobs[j];
      if job.wait.forNewPeer {
        OneReason(job, fwds[job.setup.fwd], calls, cfg);
        WaitCleared(job, fwds[job.setup.fwd], calls, cfg);
        CancelSpareWait(j);
        NoCallNeeded(jobs[j], fwds[job.setup.fwd], old(calls), calls, cfg);
      } else {
        NotWaiting(job, fwds[job.setup.fwd], calls, cfg);
      }
      PeerChanged(jobs[j], fwds[job.setup.fwd], calls, cfg, None, job.primeStart, false);
      SetJob(j, WithPeer(jobs[j], None, job.primeStart, false));
    }

    method WaitForNewPeer(j: nat)
      requires Rest(j) && Base(j) && jobs[j].client.hasCallback && Waiting(jobs[j].wait)
      requires jobs[j].currentPeer.Some? && DoneWithSpares(fwds[jobs[j].setup.fwd].dests, jobs[j].currentPeer.value)
      modifies this`jobs, this`calls, this`nextCall, this`primeGiver, this`spareGiver,
               this`concurrencyLevel, this`lastAllowanceStart
      ensures Rest(j) && Base(j) && jobs.Keys == old(jobs.Keys)
      ensures concurrencyLevel == old(concurrencyLevel) && lastAllowanceStart == old(lastAllowanceStart)
      ensures jobs[j] == old(jobs)[j].(wait := NoWait.(forNewPeer := true))
    {
      hide Rest, BaseOK;
      var job := jobs[j];
      var fwd := fwds[job.setup.fwd];
      NoVainWait(job, fwd, calls, cfg);
      SpareIdleHere(job, fwd, calls, cfg);
      PeerKnown(job, fwd, calls, cfg);
      WaitCleared(job, fwd, calls, cfg);
      CancelSpareWait(j);
      NoCallNeeded(jobs[j], fwd, old(calls), calls, cfg);
      WaitStarted(jobs[j], fwd, calls, cfg, NoWait.(forNewPeer := true));
      SetReason(j, job.(wait := NoWait.(forNewPeer := true)));
    }

    // --- The end of a job ---

    /** Ends the job: answers the initiator if it still waits, gives up waits,
      * returns the paths of unfinished attempts and the allowance of an
      * unfinished spare attempt. */
    method SwanSong(j: nat)
      requires Rest(j) && Base(j)
      modifies this`jobs, this`fwds, this`calls, this`nextCall, this`primeGiver, this`spareGiver,
               this`concurrencyLevel, this`lastAllowanceStart
      ensures Inv() && Touches(old(Books()), Books(), j)
      ensures jobs[j] == LastState(old(jobs)[j])
      ensures At(j).fwd == old(At(j)).fwd.(dests := PathsBack(old(jobs)[j], old(At(j)).fwd.dests))
    {
      hide Rest, BaseOK, Inv, Touches, Returned, Replied, ClearWait, PrimeDropped, SpareDropped, Over;
      ghost var was := Books();
      RepliedKeeps(jobs[j]);
      ClearWaitKeeps(Replied(jobs[j]));
      PrimeDroppedKeeps(ClearWait(Replied(jobs[j])));
      SpareDroppedKeeps(PrimeDropped(ClearWait(Replied(jobs[j]))));
      AnswerBeforeEnd(j);
      GiveUpWait(j);
      TouchesOnly(was, Books(), j, fwds[jobs[j].setup.fwd]);
      ghost var quiet := Books();
      CancelPrime(j);
      TouchesChain(was, quiet, Books(), j);
      quiet := Books();
      CancelSpare(j);
      TouchesChain(was, quiet, Books(), j);
      quiet := Books();
      EndJob(j);
      TouchesOnly(quiet, Books(), j, fwds[jobs[j].setup.fwd]);
      TouchesChain(was, quiet, Books(), j);
    }

    method AnswerBeforeEnd(j: nat)
      requires Rest(j) && Base(j)
      modifies this`jobs
      ensures Rest(j) && Base(j)
      ensures jobs.Keys == old(jobs.Keys) && jobs[j] == Replied(old(jobs)[j])
    {
      hide Rest, BaseOK;
      if jobs[j].client.hasCallback && !jobs[j].client.canceled {
        var job := jobs[j];
        AnswerSent(job, fwds[job.setup.fwd], calls, cfg, Answer(job.lastFailed, false, true, job.nTries, false));
        SetJob(j, SendFailure(job));
      }
    }

    method GiveUpWait(j: nat)
      requires Rest(j) && Base(j)
      modifies this`jobs, this`calls, this`nextCall, this`primeGiver, this`spareGiver,
               this`concurrencyLevel, this`lastAllowanceStart
      ensures Rest(j) && Base(j) && jobs.Keys == old(jobs.Keys) && jobs[j] == ClearWait(old(jobs)[j])
    {
      hide Rest, BaseOK;
      var job, fwd := jobs[j], fwds[jobs[j].setup.fwd];
      if Waiting(jobs[j].wait) {
        WaitCleared(job, fwd, calls, cfg);
        CancelSpareWait(j);
        NoCallNeeded(jobs[j], fwd, old(calls), calls, cfg);
      } else {
        NotWaiting(job, fwd, calls, cfg);
      }
    }

    /** An unfinished prime attempt gives its path back. */
    method CancelPrime(j: nat)
      requires Rest(j) && Base(j) && !Waiting(jobs[j].wait)
      modifies this`jobs, this`fwds
      ensures Rest(j) && Base(j) && Touches(old(Books()), Books(), j)
      ensures jobs[j] == PrimeDropped(old(jobs)[j])
      ensures At(j).fwd == old(At(j)).fwd.(dests := Returned(old(At(j)).fwd.dests, old(jobs)[j].prime))
    {
      hide Rest, BaseOK, Reinstate, Touches, Moved;
      var w := At(j);
      TouchesOnly(Books(), Books(), j, w.fwd);
      if w.job.prime.Connecting? {
        PrimeCanceled(w.job, w.fwd, calls, cfg);
        DropMoves(w);
        SetWork(j, Work(PrimeDropped(w.job), w.fwd.(dests := Reinstate(w.fwd.dests, w.job.prime.pos))));
      }
    }

    /** An unfinished spare attempt gives its path and its allowance back. */
    method CancelSpare(j: nat)
      requires Rest(j) && Base(j) && jobs[j].prime.Idle? && !Waiting(jobs[j].wait)
      modifies this`jobs, this`fwds, this`calls, this`nextCall, this`primeGiver, this`spareGiver,
               this`concurrencyLevel, this`lastAllowanceStart
      ensures Rest(j) && Base(j) && Touches(old(Books()), Books(), j)
      ensures jobs[j] == SpareDropped(old(jobs)[j])
      ensures At(j).fwd == old(At(j)).fwd.(dests := Returned(old(At(j)).fwd.dests, old(jobs)[j].spare))
    {
      hide Rest, BaseOK, Touches, WithGot, Reinstate;
      TouchesOnly(Books(), Books(), j, fwds[jobs[j].setup.fwd]);
      if jobs[j].spare.Connecting? {
        ghost var was := Books();
        WithGotKeeps(jobs[j]);
        ReturnAllowance(j, true);
        ghost var given := Books();
        TouchesOnly(was, given, j, fwds[jobs[j].setup.fwd]);
        DropSpare(j);
        TouchesChain(was, given, Books(), j);
      }
    }

    method DropSpare(j: nat)
      requires Rest(j) && Base(j) && jobs[j].spare.Connecting? && !jobs[j].permit.gotSpareAllowance
      modifies this`jobs, this`fwds
      ensures Rest(j) && Base(j) && Touches(old(Books()), Books(), j)
      ensures jobs[j] == old(jobs)[j].(spare := Idle)
      ensures At(j).fwd == old(At(j)).fwd.(dests := Returned(old(At(j)).fwd.dests, old(jobs)[j].spare))
    {
      hide Rest, BaseOK, Reinstate, Touches, Moved;
      var w := At(j);
      SpareCanceled(w.job, w.fwd, calls, cfg);
      DropMoves(w);
      SetWork(j, Work(w.job.(spare := Idle), w.fwd.(dests := Reinstate(w.fwd.dests, w.job.spare.pos))));
    }

    /** Returns the allowance of the spare attempt, if it needed one. */
    method ReturnAllowance(j: nat, dropped: bool)
      requires Rest(j) && Base(j) && jobs[j].spare.Connecting?
      modifies this`jobs, this`calls, this`nextCall, this`primeGiver, this`spareGiver,
               this`concurrencyLevel, this`lastAllowanceStart
      ensures Rest(j) && Base(j) && jobs.Keys == old(jobs.Keys)
      ensures jobs[j] == WithGot(old(jobs)[j], false)
      ensures !old(jobs)[j].permit.gotSpareAllowance ==>
                concurrencyLevel == old(concurrencyLevel) && lastAllowanceStart == old(lastAllowanceStart)
    {
      hide Rest, BaseOK, Holders, LimitKept;
      var job, fwd := jobs[j], fwds[jobs[j].setup.fwd];
      BusyDoesNotWait(job, fwd, calls, cfg);
      AllowanceReturned(job, fwd, calls, cfg);
      NoCallNeeded(WithGot(job, false), fwd, calls, calls, cfg);
      if job.permit.gotSpareAllowance {
        GiveBack(j, dropped);
        NoCallNeeded(jobs[j], fwd, old(calls), calls, cfg);
      } else {
        assert WithGot(job, false) == job;
      }
    }

    method GiveBack(j: nat, dropped: bool)
      requires Rest(j) && j in jobs && !jobs[j].life.ended && jobs[j].wait == NoWait && jobs[j].permit.gotSpareAllowance
      modifies this`jobs, this`calls, this`nextCall, this`primeGiver, this`spareGiver,
               this`concurrencyLevel, this`lastAllowanceStart
      ensures Rest(j) && jobs.Keys == old(jobs.Keys) && jobs[j] == WithGot(old(jobs)[j], false)
    {
      hide QueueOK, LinksOK, CallsOK, OthersOK, Holders, LimitKept, LimitReached, SettledOK, InTurn, Numbered, Extends;
      SetJobLevel(j, WithGot(jobs[j], false));
      NotQueued(jobs, spareGiver.queue, SpareAllowance, j);
      if dropped {
        JobDroppedAllowance(j);
      } else {
        ForgetAllowance(j);
      }
    }

    method EndJob(j: nat)
      requires Rest(j) && Base(j) && !Waiting(jobs[j].wait) && InFlight(jobs[j]) == 0
      requires jobs[j].client.hasCallback ==> jobs[j].client.canceled
      modifies this`jobs
      ensures Inv() && jobs == old(jobs)[j := Over(old(jobs)[j])] && jobs[j].setup == old(jobs)[j].setup
    {
      hide QueueOK, LinksOK, CallsOK, OthersOK, Holders, BaseOK, LimitKept, LimitReached, JobOK, SettledOK, InTurn,
           Numbered, Extends;
      var job := Over(jobs[j]);
      JobEnded(jobs, fwds, calls, cfg, j);
      HoldersAfter(jobs, j, job);
      CallsAfter(jobs, calls, j, job);
      QueueAfter(jobs, primeGiver.queue, PrimeChance, j, job);
      QueueAfter(jobs, spareGiver.queue, SpareAllowance, j, job);
      SettledAfter(settled, jobs, fwds, cfg, spareGiver.waitEnd, j, job);
      NumberedJob(jobs, calls, nextJob, nextCall, j, job);
      jobs := jobs[j := job];
    }

    /** What follows every call of a job: the job ends if it is done. */
    method CallEnd(j: nat)
      requires Rest(j) && Base(j) && jobs[j].life.started
      requires || jobs[j].life.stopped || (Progress(j) && Active(jobs[j], fwds[jobs[j].setup.fwd]))
               || DoneAll(jobs[j], fwds[jobs[j].setup.fwd].dests, cfg, curtime)
      modifies this`jobs, this`fwds, this`calls, this`nextCall, this`primeGiver, this`spareGiver,
               this`concurrencyLevel, this`lastAllowanceStart
      ensures Inv() && Touches(old(Books()), Books(), j) && Concluded(old(At(j)), At(j), cfg, curtime)
    {
      hide Rest, BaseOK, RanOut, Empty, Inv, PathsBack, Touches, DoneAll, FinalAnswers, Active;
      ghost var was := Books();
      TouchesOnly(was, was, j, fwds[jobs[j].setup.fwd]);
      var job, fwd := jobs[j], fwds[jobs[j].setup.fwd];
      CacheIrrelevant(job, fwd, calls, cfg, RanOut(job, cfg, curtime));
      LastStateSame(job, RanOut(job, cfg, curtime), fwd.dests);
      GoingOn(job, fwd.dests, cfg, curtime);
      var done := Done(j);
      if done {
        TouchesOnly(was, Books(), j, fwd);
        ghost var cached := Books();
        SwanSong(j);
        TouchesChain(was, cached, Books(), j);
      } else {
        GoOn(j);
      }
    }

    lemma GoOn(j: nat)
      requires Rest(j) && Base(j) && jobs[j].life.started && !jobs[j].life.stopped && jobs[j].client.hasCallback
      requires Progress(j)
      requires Active(jobs[j], fwds[jobs[j].setup.fwd])
      ensures Inv()
    {
      hide QueueOK, LinksOK, CallsOK, Holders, BaseOK, LimitKept, LimitReached, Empty, Active, SettledOK, InTurn,
           Numbered, Extends;
    }

    // --- Calls that jobs receive ---

    /** A live job that is not settled may step. */
    lemma Enter(j: nat)
      requires Inv() && j in jobs && !jobs[j].life.ended && j !in settled
      ensures Rest(j) && Base(j) && StableOK(jobs[j], fwds[jobs[j].setup.fwd])
    {
      hide QueueOK, LinksOK, CallsOK, Holders, BaseOK, LimitKept, LimitReached, StableOK, SettledOK, InTurn, Numbered,
           Extends;
    }

    /** A job that has anything to come is not settled. */
    lemma Unsettled(j: nat)
      requires Inv() && j in jobs && !jobs[j].life.ended
      requires || !jobs[j].life.started || jobs[j].client.canceled || InFlight(jobs[j]) > 0 || jobs[j].wait.callback.Some?
               || (jobs[j].setup.fwd in fwds && fwds[jobs[j].setup.fwd].news.notified)
      ensures j !in settled
    {
      hide QueueOK, LinksOK, CallsOK, Holders, JobsOK, LimitKept, LimitReached, InTurn, Kept;
    }

    /** Runs checkForNewConnection() as the last act of a call; a failed check stops the job. */
    method CheckAndEnd(j: nat, pconnPrime: bool, pconnSpare: bool)
      requires Rest(j) && Base(j) && jobs[j].life.started && jobs[j].client.hasCallback && !jobs[j].life.stopped
      requires jobs[j].wait.toGivePrimeItsChance ==> jobs[j].prime.Connecting?
      requires jobs[j].currentPeer.None? ==> !Empty(fwds[jobs[j].setup.fwd].dests)
      modifies this`jobs, this`fwds, this`calls, this`nextCall, this`primeGiver, this`spareGiver,
               this`concurrencyLevel, this`lastAllowanceStart
      ensures Inv() && Touches(old(Books()), Books(), j)
      ensures Concluded(Checked(old(At(j)), old(Around(pconnPrime, pconnSpare))), At(j), cfg, curtime)
    {
      hide Rest, BaseOK, Inv, RanOut, Empty, Progress, Active, Opened, Refreshed, Concluded, SpareReady, Touches,
           DoneAll, ChecksFail;
      ghost var was := Books();
      if ChecksFail(jobs[j], fwds[jobs[j].setup.fwd].dests, cfg, curtime) { CheckedFails(At(j), Around(pconnPrime, pconnSpare)); }
      var threw := CheckForNewConnection(j, pconnPrime, pconnSpare);
      ghost var tried := Books();
      if threw {
        Stop(j);
      } else {
        CallEnd(j);
      }
      TouchesChain(was, tried, Books(), j);
    }

    /** mustStop() followed by the end of the call. */
    method Stop(j: nat)
      requires Rest(j) && Base(j) && jobs[j].life.started
      modifies this`jobs, this`fwds, this`calls, this`nextCall, this`primeGiver, this`spareGiver,
               this`concurrencyLevel, this`lastAllowanceStart
      ensures Inv() && Touches(old(Books()), Books(), j)
      ensures Concluded(old(At(j)).(job := Halted(old(jobs)[j])), At(j), cfg, curtime) && jobs[j].life.ended
    {
      hide Rest, BaseOK, Inv, RanOut, Empty, FinalAnswers, PathsBack, Touches;
      ghost var was := Books();
      StopIrrelevant(jobs[j], fwds[jobs[j].setup.fwd], calls, cfg);
      SetJob(j, Halted(jobs[j]));
      TouchesOnly(was, Books(), j, fwds[jobs[j].setup.fwd]);
      ghost var halted := Books();
      CallEnd(j);
      TouchesChain(was, halted, Books(), j);
    }

    method StartJob(j: nat, pconnPrime: bool, pconnSpare: bool)
      requires Inv() && j in jobs && !jobs[j].life.ended && !jobs[j].life.started && jobs[j].setup.fwd in fwds
      modifies this`jobs, this`fwds, this`calls, this`nextCall, this`primeGiver, this`spareGiver,
               this`concurrencyLevel, this`lastAllowanceStart
      ensures Inv() && Touches(old(Books()), Books(), j)
      ensures Concluded(Checked(Started(old(At(j))), old(Around(pconnPrime, pconnSpare))), At(j), cfg, curtime)
    {
      hide Inv, Rest, BaseOK, Empty, Checked, Concluded, SpareReady, Touches;
      Unsettled(j);
      Enter(j);
      ghost var was := Books();
      var job, fwd := jobs[j], fwds[jobs[j].setup.fwd];
      StartIrrelevant(job, fwd, calls, cfg);
      PeerKnown(job, fwd, calls, cfg);
      SetJob(j, Begun(job));
      ClearNotified(j);
      TouchesOnly(was, Books(), j, WithNotified(fwd, false));
      ghost var begun := Books();
      CheckAndEnd(j, pconnPrime, pconnSpare);
      TouchesChain(was, begun, Books(), j);
    }

    method NoteCandidatesChange(j: nat, pconnPrime: bool, pconnSpare: bool)
      requires Inv() && j in jobs && !jobs[j].life.ended && jobs[j].life.started && jobs[j].setup.fwd in fwds
      requires j !in settled
      modifies this`jobs, this`fwds, this`calls, this`nextCall, this`primeGiver, this`spareGiver,
               this`concurrencyLevel, this`lastAllowanceStart
      ensures Inv() && Touches(old(Books()), Books(), j)
      ensures Concluded(Checked(Informed(old(At(j))), old(Around(pconnPrime, pconnSpare))), At(j), cfg, curtime)
      ensures ChecksFail(old(jobs)[j], old(At(j)).fwd.dests, cfg, curtime) ==>
                jobs[j].life.ended && jobs[j].answers == FinalAnswers(old(jobs)[j])
      ensures Stalled(old(jobs)[j], old(At(j)).fwd.dests, cfg, curtime) ==> At(j) == Informed(old(At(j)))
    {
      hide Inv, Rest, BaseOK, Empty, Checked, Concluded, SpareReady, ChecksFail, Stalled, FinalAnswers, Touches;
      Enter(j);
      ghost var was, m := Books(), Around(pconnPrime, pconnSpare);
      ClearNotified(j);
      ghost var w, informed := At(j), Books();
      TouchesOnly(was, informed, j, w.fwd);
      CheckAndEnd(j, pconnPrime, pconnSpare);
      TouchesChain(was, informed, Books(), j);
      if ChecksFail(w.job, w.fwd.dests, cfg, curtime) { FailedCheckEnds(w, m, At(j)); }
      if Stalled(w.job, w.fwd.dests, cfg, curtime) { StalledUnmoved(w, m, At(j)); }
    }

    method HandleStopRequest(j: nat)
      requires Inv() && j in jobs && !jobs[j].life.ended && jobs[j].life.started && jobs[j].setup.fwd in fwds
      requires j !in settled
      modifies this`jobs, this`fwds, this`calls, this`nextCall, this`primeGiver, this`spareGiver,
               this`concurrencyLevel, this`lastAllowanceStart
      ensures Inv() && Touches(old(Books()), Books(), j) && jobs[j].life.ended
      ensures Concluded(old(At(j)).(job := Halted(old(jobs)[j])), At(j), cfg, curtime)
    {
      hide Inv, Rest, BaseOK, Empty, Concluded, Touches;
      Enter(j);
      Stop(j);
    }

    /** The wait is over: the call has fired, and the prime had its chance. */
    method NoteGavePrimeItsChance(j: nat, pconnPrime: bool, pconnSpare: bool)
      requires Inv() && j in jobs && !jobs[j].life.ended && jobs[j].wait.callback.Some? && jobs[j].setup.fwd in fwds
      requires jobs[j].wait.callback.value in calls && calls[jobs[j].wait.callback.value].kind.PrimeChance?
      modifies this`jobs, this`fwds, this`calls, this`nextCall, this`primeGiver, this`spareGiver,
               this`concurrencyLevel, this`lastAllowanceStart
      ensures Inv() && Touches(old(Books()), Books(), j)
      ensures Concluded(Checked(old(At(j)).(job := ClearWait(old(jobs)[j])), old(Around(pconnPrime, pconnSpare))), At(j), cfg, curtime)
    {
      hide Inv, Rest, BaseOK, Empty, Checked, Concluded, SpareReady, Touches;
      Unsettled(j);
      Enter(j);
      ghost var was := Books();
      var job, fwd := jobs[j], fwds[jobs[j].setup.fwd];
      CallExpected(job, fwd, calls, cfg);
      assert job.wait.toGivePrimeItsChance;
      PeerKnown(job, fwd, calls, cfg);
      WaitCleared(job, fwd, calls, cfg);
      CancelCall(j, ClearWait(job));
      NoCallNeeded(jobs[j], fwd, old(calls), calls, cfg);
      ghost var cleared := Books();
      TouchesOnly(was, cleared, j, fwd);
      CheckAndEnd(j, pconnPrime, pconnSpare);
      TouchesChain(was, cleared, Books(), j);
    }

    /** Reacts to satisfying the gap and the limit: opens a spare connection,
      * or returns the allowance if it came too late. */
    method NoteSpareAllowance(j: nat, pconn: bool)
      requires Inv() && j in jobs && !jobs[j].life.ended && jobs[j].wait.callback.Some? && jobs[j].setup.fwd in fwds
      requires jobs[j].wait.callback.value in calls && calls[jobs[j].wait.callback.value].kind.SpareAllowance?
      modifies this`jobs, this`fwds, this`calls, this`nextCall, this`primeGiver, this`spareGiver,
               this`concurrencyLevel, this`lastAllowanceStart
      ensures Inv() && Touches(old(Books()), Books(), j)
      ensures old(jobs)[j].currentPeer.Some? && HaveSpare(old(At(j)).fwd.dests, old(jobs)[j].currentPeer.value)
      ensures Concluded(Allowed(old(At(j)), old(Around(false, pconn))), At(j), cfg, curtime)
      ensures jobs[j].life.ended && jobs[j].permit.gotSpareAllowance <==>
                && !RanOut(old(jobs)[j], cfg, curtime)
                && Reuses(old(At(j)), FindSpare(old(At(j)).fwd.dests, old(jobs)[j].currentPeer.value).pos, pconn)
    {
      hide Inv, Rest, BaseOK, RanOut, Empty, FindSpare, SpareReady, Concluded, Touches, Allowed, Active, DoneAll,
           HaveSpare;
      Unsettled(j);
      Enter(j);
      ghost var books, was, m := Books(), At(j), Around(false, pconn);
      CallExpected(jobs[j], fwds[jobs[j].setup.fwd], calls, cfg);
      assert jobs[j].wait.forSpareAllowance;
      LiveAllowance(was.job, was.fwd, calls, cfg);
      UseAllowance(j, pconn);
      ghost var used := Books();
      CallEnd(j);
      TouchesChain(books, used, Books(), j);
      GivenAllowanceKept(was, m, At(j));
    }

    /** All of noteSpareAllowance() but the end of the call. */
    method UseAllowance(j: nat, pconn: bool)
      requires Rest(j) && Base(j) && StableOK(jobs[j], fwds[jobs[j].setup.fwd]) && PendingAllowance(jobs[j])
      requires jobs[j].currentPeer.Some? && HaveSpare(fwds[jobs[j].setup.fwd].dests, jobs[j].currentPeer.value)
      modifies this`jobs, this`fwds, this`calls, this`nextCall, this`primeGiver, this`spareGiver,
               this`concurrencyLevel, this`lastAllowanceStart
      ensures Rest(j) && Base(j) && Touches(old(Books()), Books(), j)
      ensures At(j) == Allowed(old(At(j)), old(Around(false, pconn)))
      ensures jobs[j].life.started && !jobs[j].life.stopped && jobs[j].currentPeer.Some?
      ensures !jobs[j].wait.toGivePrimeItsChance
      ensures || DoneAll(jobs[j], fwds[jobs[j].setup.fwd].dests, cfg, curtime)
              || Active(jobs[j], fwds[jobs[j].setup.fwd])
    {
      hide Rest, BaseOK, RanOut, Empty, FindSpare, SpareReady, SpareOn, Touches, DoneAll;
      var job, fwd := jobs[j], fwds[jobs[j].setup.fwd];
      CallExpected(job, fwd, calls, cfg);
      PeerKnown(job, fwd, calls, cfg);
      WaitCleared(job, fwd, calls, cfg);
      AttemptsLeft(job, cfg, curtime);
      AllowedLeft(At(j), Around(false, pconn));
      ghost var was := Books();
      if RanOut(job, cfg, curtime) {
        var late := ClearWait(job).(ranOut := true);
        CacheIrrelevant(ClearWait(job), fwd, calls, cfg, true);
        ReturnLateAllowance(j, late);
        NoCallNeeded(late, fwd, old(calls), calls, cfg);
        TouchesOnly(was, Books(), j, fwd);
      } else {
        var allowed := WithGot(ClearWait(job), true);
        KeepAllowance(j, allowed);
        NoCallNeeded(ClearWait(job), fwd, old(calls), calls, cfg);
        assert WithGot(allowed, false) == ClearWait(job);
        TouchesOnly(was, Books(), j, fwd);
        ghost var kept := Books();
        StartSpare(j, FindSpare(fwd.dests, job.currentPeer.value).pos, pconn);
        TouchesChain(was, kept, Books(), j);
      }
    }

    method ReturnLateAllowance(j: nat, job: Job)
      requires Rest(j) && j in jobs && PendingAllowance(jobs[j]) && !Holds(job) && SameIdentity(jobs[j], job)
      requires job.wait == NoWait && !jobs[j].life.ended
      modifies this`jobs, this`calls, this`nextCall, this`primeGiver, this`spareGiver,
               this`concurrencyLevel, this`lastAllowanceStart
      ensures Rest(j) && jobs.Keys == old(jobs.Keys) && jobs[j] == job
    {
      hide QueueOK, LinksOK, CallsOK, OthersOK, Holders, LimitKept, LimitReached, SettledOK, InTurn, Numbered, Extends;
      TakeCall(j, job);
      NotQueued(jobs, spareGiver.queue, SpareAllowance, j);
      JobDroppedAllowance(j);
    }

    method KeepAllowance(j: nat, job: Job)
      requires Rest(j) && j in jobs && PendingAllowance(jobs[j]) && job.permit.gotSpareAllowance
      requires SameIdentity(jobs[j], job)
      requires job.wait == NoWait && !jobs[j].life.ended
      modifies this`jobs, this`calls
      ensures Rest(j) && jobs == old(jobs)[j := job]
    {
      hide FrameOK, Holders, LimitKept;
      CancelCall(j, job);
    }

    // --- Results of attempts ---

    /** A success is reported; a failure may lift the restrictions on spares and
      * is followed by a check for new connections. */
    method NotePrimeConnectDone(j: nat, ok: bool, pconnPrime: bool, pconnSpare: bool) returns (ghost ready: bool)
      requires Inv() && j in jobs && !jobs[j].life.ended && jobs[j].prime.Connecting? && jobs[j].setup.fwd in fwds
      modifies this`jobs, this`fwds, this`calls, this`nextCall, this`primeGiver, this`spareGiver,
               this`concurrencyLevel, this`lastAllowanceStart
      ensures Inv() && Touches(old(Books()), Books(), j) && old(jobs)[j].currentPeer.Some?
      ensures Concluded(if ok then PrimeSucceeded(old(At(j)))
                        else Checked(PrimeFailed(old(At(j))), old(Around(pconnPrime, pconnSpare)).(spareReady := ready)),
                        At(j), cfg, curtime)
      ensures ok ==> jobs[j].life.ended
                     && jobs[j].answers == PrimeSucceeded(old(At(j))).job.answers
      ensures !old(jobs)[j].wait.forSpareAllowance ==> ready == old(SpareReady())
    {
      hide Inv, Rest, BaseOK, Empty, SpareReady, Checked, Concluded, Touches, AfterPrimeFailure, FinishPrime, Failed,
           SendSuccess;
      Unsettled(j);
      Enter(j);
      ghost var was := Books();
      PeerKnown(jobs[j], fwds[jobs[j].setup.fwd], calls, cfg);
      FinishPrimeKeeps(jobs[j]);
      FailedKeeps(FinishPrime(jobs[j]), jobs[j].prime.pos);
      var pos := jobs[j].prime.pos;
      FinishPrimeAttempt(j);
      ready := SpareReady();
      ghost var finished := Books();
      if ok {
        ReportSuccess(j, pos);
      } else {
        ready := NotePrimeFailure(j, pos, pconnPrime, pconnSpare);
      }
      TouchesChain(was, finished, Books(), j);
    }

    /** What follows a failed prime attempt. */
    method NotePrimeFailure(j: nat, pos: nat, pconnPrime: bool, pconnSpare: bool) returns (ghost ready: bool)
      requires Rest(j) && Base(j) && jobs[j].prime.Idle? && jobs[j].life.started && jobs[j].client.hasCallback
      requires !jobs[j].life.stopped
      requires jobs[j].currentPeer.Some? && SameLife(jobs[j], Failed(jobs[j], pos))
      requires Failed(jobs[j], pos).prime.Idle? && Failed(jobs[j], pos).wait == jobs[j].wait
      modifies this`jobs, this`fwds, this`calls, this`nextCall, this`primeGiver, this`spareGiver,
               this`concurrencyLevel, this`lastAllowanceStart
      ensures Inv() && Touches(old(Books()), Books(), j)
      ensures var was := old(At(j));
              Concluded(Checked(was.(job := AfterPrimeFailure(Failed(was.job, pos), was.fwd.dests)),
                                old(Around(pconnPrime, pconnSpare)).(spareReady := ready)), At(j), cfg, curtime)
      ensures !old(jobs)[j].wait.forSpareAllowance ==> ready == old(SpareReady())
    {
      hide Inv, Rest, BaseOK, Empty, SpareReady, Checked, Concluded, Touches, AfterPrimeFailure, Failed;
      ghost var was := Books();
      UpdateKeeps(Failed(jobs[j], pos), fwds[jobs[j].setup.fwd].dests);
      NoteFailure(j, pos);
      if Waiting(jobs[j].wait) {
        UpdateSpareWaitAfterPrimeFailure(j);
      }
      ready := SpareReady();
      ghost var updated := Books();
      TouchesOnly(was, updated, j, fwds[jobs[j].setup.fwd]);
      CheckAndEnd(j, pconnPrime, pconnSpare);
      TouchesChain(was, updated, Books(), j);
    }

    method FinishPrimeAttempt(j: nat)
      requires Rest(j) && Base(j) && jobs[j].prime.Connecting?
      modifies this`jobs, this`fwds
      ensures Rest(j) && Base(j) && Touches(old(Books()), Books(), j)
      ensures At(j) == PrimeOver(old(At(j)))
    {
      hide Rest, BaseOK, Touches, FinishPrime, Moved;
      PrimeFinished(jobs[j], fwds[jobs[j].setup.fwd], calls, cfg);
      FinishMoves(At(j));
      SetWork(j, PrimeOver(At(j)));
    }

    method FinishSpareAttempt(j: nat)
      requires Rest(j) && Base(j) && jobs[j].spare.Connecting?
      modifies this`jobs, this`fwds, this`calls, this`nextCall, this`primeGiver, this`spareGiver,
               this`concurrencyLevel, this`lastAllowanceStart
      ensures Rest(j) && Base(j) && Touches(old(Books()), Books(), j)
      ensures At(j) == SpareOver(old(At(j)))
      ensures !old(jobs)[j].permit.gotSpareAllowance ==>
                concurrencyLevel == old(concurrencyLevel) && lastAllowanceStart == old(lastAllowanceStart)
    {
      hide Rest, BaseOK, Touches, FinishSpare, Moved, WithGot;
      ghost var was := Books();
      WithGotKeeps(jobs[j]);
      ReturnAllowance(j, false);
      ghost var returned := Books();
      TouchesOnly(was, returned, j, fwds[jobs[j].setup.fwd]);
      SpareFinished(jobs[j], fwds[jobs[j].setup.fwd], calls, cfg);
      FinishMoves(At(j));
      SetWork(j, Work(FinishSpare(jobs[j]), At(j).fwd.(handled := At(j).fwd.handled + {jobs[j].spare.pos})));
      TouchesChain(was, returned, Books(), j);
    }

    /** The allowance of the attempt is returned. */
    method NoteSpareConnectDone(j: nat, ok: bool, pconnPrime: bool, pconnSpare: bool) returns (ghost ready: bool)
      requires Inv() && j in jobs && !jobs[j].life.ended && jobs[j].spare.Connecting? && jobs[j].setup.fwd in fwds
      modifies this`jobs, this`fwds, this`calls, this`nextCall, this`primeGiver, this`spareGiver,
               this`concurrencyLevel, this`lastAllowanceStart
      ensures Inv() && Touches(old(Books()), Books(), j)
      ensures Concluded(if ok then SpareSucceeded(old(At(j)))
                        else Checked(SpareFailed(old(At(j))), old(Around(pconnPrime, pconnSpare)).(spareReady := ready)),
                        At(j), cfg, curtime)
      ensures ok ==> jobs[j].life.ended && !jobs[j].permit.gotSpareAllowance
                     && jobs[j].answers == SpareSucceeded(old(At(j))).job.answers
      ensures !old(jobs)[j].permit.gotSpareAllowance ==> ready == old(SpareReady())
    {
      hide Inv, Rest, BaseOK, Empty, SpareReady, Checked, Concluded, Touches, WithGot, FinishSpare, Failed, SendSuccess;
      Unsettled(j);
      Enter(j);
      ghost var was := Books();
      PeerKnown(jobs[j], fwds[jobs[j].setup.fwd], calls, cfg);
      BusyDoesNotWait(jobs[j], fwds[jobs[j].setup.fwd], calls, cfg);
      WithGotKeeps(jobs[j]);
      FinishSpareKeeps(WithGot(jobs[j], false));
      FailedKeeps(FinishSpare(WithGot(jobs[j], false)), jobs[j].spare.pos);
      var pos := jobs[j].spare.pos;
      FinishSpareAttempt(j);
      ready := SpareReady();
      ghost var finished := Books();
      if ok {
        ReportSuccess(j, pos);
      } else {
        NoteFailure(j, pos);
        TouchesOnly(finished, Books(), j, fwds[jobs[j].setup.fwd]);
        TouchesChain(was, finished, Books(), j);
        finished := Books();
        CheckAndEnd(j, pconnPrime, pconnSpare);
      }
      TouchesChain(was, finished, Books(), j);
    }

    method ReportSuccess(j: nat, pos: nat)
      requires Rest(j) && Base(j) && jobs[j].life.started && jobs[j].client.hasCallback
      requires pos in fwds[jobs[j].setup.fwd].handled
      modifies this`jobs, this`fwds, this`calls, this`nextCall, this`primeGiver, this`spareGiver,
               this`concurrencyLevel, this`lastAllowanceStart
      ensures Inv() && Touches(old(Books()), Books(), j) && jobs[j].life.ended
      ensures Concluded(old(At(j)).(job := SendSuccess(old(jobs)[j], pos, false)), At(j), cfg, curtime)
      ensures jobs[j].answers == SendSuccess(old(jobs)[j], pos, false).answers
      ensures jobs[j].permit.gotSpareAllowance ==> old(jobs)[j].permit.gotSpareAllowance
    {
      hide Rest, BaseOK, Inv, RanOut, Empty, PathsBack, Touches;
      ghost var was := Books();
      var job := jobs[j];
      AnswerSent(job, fwds[job.setup.fwd], calls, cfg, Answer(Some(pos), true, false, job.nTries, false));
      SetJob(j, SendSuccess(job, pos, false));
      TouchesOnly(was, Books(), j, fwds[job.setup.fwd]);
      ghost var sent := Books();
      CallEnd(j);
      TouchesChain(was, sent, Books(), j);
    }

    method NoteFailure(j: nat, pos: nat)
      requires Rest(j) && Base(j)
      modifies this`jobs
      ensures Rest(j) && Base(j) && jobs == old(jobs)[j := Failed(old(jobs)[j], pos)]
    {
      hide Rest, BaseOK;
      FailureIrrelevant(jobs[j], fwds[jobs[j].setup.fwd], calls, cfg, pos);
      SetJob(j, jobs[j].(lastFailed := Some(pos)));
    }

    /** Reacts to a prime attempt failure. */
    method UpdateSpareWaitAfterPrimeFailure(j: nat)
      requires Rest(j) && Base(j) && jobs[j].prime.Idle? && Waiting(jobs[j].wait)
      modifies this`jobs, this`calls, this`nextCall, this`primeGiver, this`spareGiver,
               this`concurrencyLevel, this`lastAllowanceStart
      ensures Rest(j) && Base(j) && jobs.Keys == old(jobs.Keys) && old(jobs)[j].currentPeer.Some?
      ensures jobs[j] == AfterPrimeFailure(old(jobs)[j], old(At(j)).fwd.dests)
      ensures !old(jobs)[j].wait.forSpareAllowance ==>
                concurrencyLevel == old(concurrencyLevel) && lastAllowanceStart == old(lastAllowanceStart)
    {
      hide Rest, BaseOK, DoneWithPrimes;
      var job, fwd := jobs[j], fwds[jobs[j].setup.fwd];
      PeerKnown(job, fwd, calls, cfg);
      WaitCleared(job, fwd, calls, cfg);
      if DoneWithPrimes(fwd.dests, job.currentPeer.value) {
        CancelSpareWait(j);
        NoCallNeeded(jobs[j], fwd, old(calls), calls, cfg);
        IgnoreRestrictions(jobs[j], fwd, calls, cfg);
        SetJob(j, Lifted(jobs[j]));
        return;
      }
      if job.wait.toGivePrimeItsChance {
        OnlyReason(job, fwd, calls, cfg);
        StopGivingPrimeItsChance(j);
        NoCallNeeded(jobs[j], fwd, old(calls), calls, cfg);
      }
    }

    /** The pause is over: the enforcer resumes the jobs that are ready, in order. */
    method NoteWaitOver(kind: Kind) returns (ghost n: nat)
      requires Inv() && Giver(kind).waitEnd > 0.0
      modifies this`jobs, this`calls, this`nextCall, this`primeGiver, this`spareGiver,
               this`concurrencyLevel, this`lastAllowanceStart
      ensures Inv() && jobs.Keys == old(jobs.Keys)
      ensures Progressed(old(Queue(kind)), n, Queue(kind), kind, old(calls), calls, old(nextCall), nextCall)
      ensures n > 0 <==> old(FrontIsReady(kind))
    {
      hide QueueOK, CallsOK, LinksOK, Holders, JobsOK, OthersOK, LimitKept, LimitReached, SettledOK, Turns, Progressed,
           Numbered, Extends;
      NumberedFresh(jobs, calls, nextJob, nextCall);
      QueueInJobs(jobs, Queue(kind), kind, nextJob);
      JobsAreOthers(jobs, fwds, calls, cfg, nextJob);
      SettledInJobs(settled, jobs, fwds, cfg, spareGiver.waitEnd, nextJob);
      SettledAwake(settled, jobs, fwds, cfg, spareGiver.waitEnd, 0.0, concurrencyLevel);
      SetGiver(kind, Giver(kind).(waitEnd := 0.0));
      n := Checkpoint(kind, nextJob);
      JobsAreOthers(jobs, fwds, calls, cfg, nextJob);
    }

    // --- FwdState ---

    /** An assignment to a request that no live job works for. */
    method SetFwd(f: nat, fwd: Fwd)
      requires Inv() && (f in fwds ==> Quiet(fwds[f], jobs)) && FwdOK(f, fwd, jobs, cfg)
      modifies this`fwds
      ensures Inv() && fwds == old(fwds)[f := fwd]
    {
      hide QueueOK, CallsOK, LinksOK, Holders, JobsOK, LimitKept, LimitReached, FwdOK, SettledOK, InTurn, Numbered,
           Extends;
      QuietAfter(jobs, fwds, calls, cfg, f, fwd);
      if f in fwds { QuietNotSettled(f); }
      OpenerNotSettled(settled, jobs, fwds, cfg, spareGiver.waitEnd, f);
      SettledAfterFwd(settled, jobs, fwds, cfg, spareGiver.waitEnd, f, fwd);
      fwds := fwds[f := fwd];
    }

    lemma QuietNotSettled(f: nat)
      requires SettledStay(jobs) && f in fwds && Quiet(fwds[f], jobs)
      ensures fwds[f].opener.None? || fwds[f].opener.value !in settled || settled[fwds[f].opener.value].life.ended
    {
      hide Forgotten;
    }

    lemma Linked(f: nat)
      requires Inv() && f in fwds
      ensures FwdOK(f, fwds[f], jobs, cfg)
      ensures fwds[f].opener.Some? ==> JobOK(jobs[fwds[f].opener.value], fwds, calls, cfg)
      ensures !fwds[f].stage.waiting && !fwds[f].stage.dead ==> Quiet(fwds[f], jobs)
    {
      hide QueueOK, CallsOK, Holders, LimitKept, LimitReached, BaseOK, StableOK, EndedOK, PathsOK, SettledOK, InTurn,
           Numbered, Extends;
      assert FwdOK(f, fwds[f], jobs, cfg);
      if fwds[f].opener.Some? {
        assert LinkOK(fwds[f].opener.value, jobs[fwds[f].opener.value], fwds);
      }
    }

    method NewRequest(f: nat, sslBumped: bool)
      requires Inv() && f !in fwds
      modifies this`fwds
      ensures Inv() && fwds == old(fwds)[f := NewFwd(sslBumped, curtime)]
    {
      hide Inv;
      SetFwd(f, NewFwd(sslBumped, curtime));
    }

    /** The opener that is expected to answer the request may be told otherwise. */
    ghost predicate OpenerUnsettled(f: nat)
      reads this
    {
      f in fwds && fwds[f].stage.waiting && fwds[f].opener.Some? ==> fwds[f].opener.value !in settled
    }

    /** Ends forwarding; the opener, if any, learns that nobody waits for its answer. */
    method StopAndDestroy(f: nat)
      requires Inv() && f in fwds && OpenerUnsettled(f)
      modifies this`fwds, this`jobs
      ensures Inv() && Books() == StoppedFwd(old(Books()), f)
      ensures f in fwds && fwds[f].stage.dead && !fwds[f].stage.waiting && fwds[f].nTries == old(fwds)[f].nTries
    {
      hide Inv, JobOK, PathsOK, TriesLogged;
      Linked(f);
      if fwds[f].stage.waiting {
        CancelOpener(f, fwds[f].opener.value);
      } else if !fwds[f].stage.dead {
        AbandonOK(f, fwds[f], jobs, cfg);
        SetFwd(f, Abandon(fwds[f]));
      }
    }

    method CancelOpener(f: nat, j: nat)
      requires Inv() && f in fwds && fwds[f].stage.waiting && fwds[f].opener == Some(j) && j in jobs && j !in settled
      modifies this`fwds, this`jobs
      ensures Inv() && jobs == old(jobs)[j := Disowned(old(jobs)[j])]
      ensures fwds == old(fwds)[f := Abandon(old(fwds)[f])]
    {
      hide QueueOK, CallsOK, LinksOK, Holders, JobsOK, LimitKept, LimitReached, SettledOK, InTurn, Numbered, Extends;
      var job := Disowned(jobs[j]);
      Abandoned(jobs, fwds, calls, cfg, f);
      HoldersAfter(jobs, j, job);
      CallsAfter(jobs, calls, j, job);
      QueueAfter(jobs, primeGiver.queue, PrimeChance, j, job);
      QueueAfter(jobs, spareGiver.queue, SpareAllowance, j, job);
      OpenerNotSettled(settled, jobs, fwds, cfg, spareGiver.waitEnd, f);
      SettledAfter(settled, jobs, fwds, cfg, spareGiver.waitEnd, j, job);
      SettledAfterFwd(settled, jobs[j := job], fwds, cfg, spareGiver.waitEnd, f, Abandon(fwds[f]));
      NumberedJob(jobs, calls, nextJob, nextCall, j, job);
      jobs := jobs[j := job];
      fwds := fwds[f := Abandon(fwds[f])];
    }

    /** Creates an opener job for the paths at hand. */
    method ConnectStart(f: nat)
      requires Inv() && f in fwds && Quiet(fwds[f], jobs) && !Empty(fwds[f].dests)
      requires !fwds[f].stage.dead && !fwds[f].stage.transporting && fwds[f].news.destinationsFound
      modifies this`fwds, this`jobs, this`nextJob
      ensures Inv() && old(nextJob) !in old(jobs) && jobs == old(jobs)[old(nextJob) := NewJob(f, old(fwds)[f])]
      ensures fwds == old(fwds)[f := Engage(old(fwds)[f], old(nextJob))] && nextJob == old(nextJob) + 1
    {
      hide QueueOK, CallsOK, LinksOK, Holders, JobsOK, LimitKept, LimitReached, Empty, SettledOK, InTurn, Numbered,
           Extends;
      var job, fwd := NewJob(f, fwds[f]), Engage(fwds[f], nextJob);
      NumberedFresh(jobs, calls, nextJob, nextCall);
      OpenerStarted(jobs, fwds, calls, cfg, f, nextJob);
      QueueNewJob(jobs, primeGiver.queue, PrimeChance, nextJob, job);
      QueueNewJob(jobs, spareGiver.queue, SpareAllowance, nextJob, job);
      CallsNewJob(jobs, calls, nextJob, job);
      HoldersNewJob(jobs, nextJob, job);
      QuietNotSettled(f);
      SettledInJobs(settled, jobs, fwds, cfg, spareGiver.waitEnd, nextJob);
      OpenerNotSettled(settled, jobs, fwds, cfg, spareGiver.waitEnd, f);
      SettledAfter(settled, jobs, fwds, cfg, spareGiver.waitEnd, nextJob, job);
      SettledAfterFwd(settled, jobs[nextJob := job], fwds, cfg, spareGiver.waitEnd, f, fwd);
      NumberedNew(jobs, calls, nextJob, nextCall, job);
      jobs := jobs[nextJob := job];
      fwds := fwds[f := fwd];
      nextJob := nextJob + 1;
    }

    /** Tries the next path, waits for more paths, or gives up. */
    method UseDestinations(f: nat)
      requires Inv() && f in fwds && !fwds[f].stage.waiting && !fwds[f].stage.dead && !fwds[f].stage.transporting
      requires fwds[f].news.destinationsFound
      modifies this`fwds, this`jobs, this`nextJob
      ensures Inv() && Books() == Proceeded(old(Books()), f)
    {
      hide Inv, Empty, FwdOK, JobOK, Quiet;
      Linked(f);
      if !Empty(fwds[f].dests) {
        ConnectStart(f);
      } else if fwds[f].dests.finalized {
        StopAndDestroy(f);
      }
    }

    predicate ExhaustedTries(f: nat)
      requires f in fwds
      reads this
    {
      fwds[f].nTries >= cfg.forwardMaxTries
    }

    /** `retryable` stands for the conditions that do not depend on attempts:
      * the state of the store entry, the request body, pinning and shutdown. */
    method RetryOrBail(f: nat, retryable: bool)
      requires Inv() && f in fwds && !fwds[f].stage.waiting && !fwds[f].stage.dead && !fwds[f].stage.transporting
      requires fwds[f].news.destinationsFound
      modifies this`fwds, this`jobs, this`nextJob
      ensures Inv() && Books() == Retried(old(Books()), f, cfg, curtime, retryable)
    {
      hide Inv, Proceeded, StoppedFwd;
      if retryable && !ExhaustedTries(f) && ForwardTimeout(cfg, curtime, fwds[f].startT) > 0 && !fwds[f].dontRetry {
        UseDestinations(f);
      } else {
        StopAndDestroy(f);
      }
    }

    /** Receives the answer of the opener, which is gone by then. `closed` says
      * that the connection was closed while the answer was on its way. */
    method NoteConnection(f: nat, closed: bool, retryable: bool)
      requires Inv() && f in fwds && fwds[f].stage.waiting && fwds[f].opener.value in jobs
      requires jobs[fwds[f].opener.value].life.ended
      modifies this`fwds, this`jobs, this`nextJob
      ensures Inv() && |old(jobs[fwds[f].opener.value]).answers| == 1
      ensures Books() == Answered(old(Books()), f, old(jobs[fwds[f].opener.value].answers[0]), cfg, curtime, closed, retryable)
    {
      hide Inv, PathsOK, Retried;
      Linked(f);
      var fwd := fwds[f];
      var a := jobs[fwd.opener.value].answers[0];
      assert fwd.nTries <= a.nTries <= cfg.forwardMaxTries + 1;
      LogGrows(fwd.triesLog, fwd.nTries, a.nTries);
      if a.error {
        SetFwd(f, WithAttempts(fwd, a.nTries).(stage := fwd.stage.(waiting := false), dontRetry := true));
        RetryOrBail(f, retryable);
      } else if closed {
        SetFwd(f, WithAttempts(fwd, a.nTries).(stage := fwd.stage.(waiting := false)));
        RetryOrBail(f, retryable);
      } else {
        SetFwd(f, WithAttempts(fwd, a.nTries).(stage := fwd.stage.(waiting := false, transporting := true), receipt := a.conn,
                  race := if a.reused then RacePossible else fwd.race));
      }
    }

    /** Commits to a fresh connection once its preparation steps are over. */
    method SyncWithServerConn(f: nat)
      requires Inv() && f in fwds && fwds[f].stage.transporting && !fwds[f].stage.dead && !fwds[f].stage.waiting
      modifies this`fwds
      ensures Inv() && fwds == old(fwds)[f := old(fwds)[f].(race := RaceImpossible)]
    {
      hide Inv, PathsOK, TriesLogged;
      Linked(f);
      SetFwd(f, fwds[f].(race := RaceImpossible));
    }

    /** The connection closed or its user quit. `zeroReply` says that it failed
      * without a reply; a raced persistent connection then returns its path. */
    method TransportEnded(f: nat, zeroReply: bool, retryable: bool)
      requires Inv() && f in fwds && fwds[f].stage.transporting && !fwds[f].stage.dead && !fwds[f].stage.waiting
      modifies this`fwds, this`jobs, this`nextJob
      ensures Inv() && (old(fwds)[f].receipt.Some? ==> old(fwds)[f].receipt.value < |old(fwds)[f].dests.slots|)
      ensures Books() == Retried(WithFwd(old(Books()), f, Freed(old(fwds)[f], zeroReply)), f, cfg, curtime, retryable)
    {
      hide Inv, PathsOK, TriesLogged, Retried;
      Linked(f);
      var fwd := fwds[f];
      if fwd.receipt.Some? {
        ReceiptInRange(fwd.dests.slots, fwd.handled, fwd.receipt.value);
        PathsReinstate(fwd.dests.slots, fwd.handled, fwd.receipt.value);
      }
      if zeroReply && fwd.race == RacePossible {
        if fwd.receipt.Some? {
          fwd := fwd.(dests := Reinstate(fwd.dests, fwd.receipt.value), handled := fwd.handled - {fwd.receipt.value});
        }
        fwd := fwd.(race := RaceHappened);
      }
      SetFwd(f, Emptied(fwd));
      RetryOrBail(f, retryable);
    }

    /** The reply ended: re-forwards it elsewhere if it should be. */
    method Complete(f: nat, reforwardable: bool)
      requires Inv() && f in fwds && fwds[f].stage.transporting && !fwds[f].stage.dead && !fwds[f].stage.waiting
      modifies this`fwds, this`jobs, this`nextJob
      ensures Inv()
      ensures var was := old(Books());
              var fwd := was.fwds[f];
              Books() == if reforwardable && !old(ExhaustedTries(f)) && !(Empty(fwd.dests) && fwd.dests.finalized)
                         then Proceeded(WithFwd(was, f, Emptied(fwd)), f)
                         else StoppedFwd(was, f)
    {
      hide Inv, PathsOK, TriesLogged, Empty, Proceeded, StoppedFwd;
      Linked(f);
      var d := fwds[f].dests;
      if reforwardable && !ExhaustedTries(f) && !(Empty(d) && d.finalized) {
        SetFwd(f, Emptied(fwds[f]));
        UseDestinations(f);
      } else {
        StopAndDestroy(f);
      }
    }

    /** A pinned connection must be the first destination. */
    method UsePinned(f: nat, ok: bool)
      requires Inv() && f in fwds && !fwds[f].news.destinationsFound && !fwds[f].stage.dead
      modifies this`fwds, this`jobs
      ensures Inv() && f in fwds
      ensures ok ==> fwds[f].stage.transporting && fwds[f].nTries == old(fwds)[f].nTries + 1
      ensures !ok ==> fwds[f].stage.dead
    {
      hide Inv, PathsOK;
      Linked(f);
      var fwd := fwds[f];
      if !ok {
        StopAndDestroy(f);
      } else {
        LogGrows(fwd.triesLog, fwd.nTries, fwd.nTries + 1);
        SetFwd(f, WithAttempts(fwd, fwd.nTries + 1).(news := fwd.news.(destinationsFound := true),
                  stage := fwd.stage.(transporting := true), race := RacePossible));
      }
    }

    method GrowPaths(f: nat, fwd: Fwd)
      requires Inv() && f in fwds && fwd == Told(fwds[f], fwd.dests) && !fwds[f].dests.finalized
      requires fwd.dests == Finalize(fwds[f].dests) || exists p :: fwd.dests == AddPath(fwds[f].dests, p)
      modifies this`fwds
      ensures Inv() && fwds == old(fwds)[f := fwd]
    {
      hide QueueOK, CallsOK, LinksOK, Holders, JobsOK, LimitKept, LimitReached, SettledOK, InTurn, Numbered, Extends;
      PathsGrow(jobs, fwds, calls, cfg, f, fwd);
      OpenerNotSettled(settled, jobs, fwds, cfg, spareGiver.waitEnd, f);
      SettledAfterFwd(settled, jobs, fwds, cfg, spareGiver.waitEnd, f, fwd);
      fwds := fwds[f := fwd];
    }

    method NoteDestination(f: nat, path: Path)
      requires Inv() && f in fwds && !fwds[f].stage.dead && !fwds[f].dests.finalized
      modifies this`fwds, this`jobs, this`nextJob
      ensures Inv()
      ensures var was := old(Books());
              var fwd := Told(was.fwds[f], AddPath(was.fwds[f].dests, path));
              Books() == if fwd.stage.waiting || fwd.stage.transporting then WithFwd(was, f, fwd) else Proceeded(WithFwd(was, f, fwd), f)
    {
      hide Inv, Proceeded;
      GrowPaths(f, Told(fwds[f], AddPath(fwds[f].dests, path)));
      if fwds[f].stage.waiting || fwds[f].stage.transporting {
        return;
      }
      UseDestinations(f);
    }

    method NoteDestinationsEnd(f: nat)
      requires Inv() && f in fwds && !fwds[f].stage.dead && !fwds[f].dests.finalized
      modifies this`fwds, this`jobs
      ensures Inv()
      ensures var was := old(Books());
              var fwd := Told(was.fwds[f], Finalize(was.fwds[f].dests));
              Books() == if !was.fwds[f].news.destinationsFound then StoppedFwd(was, f)
                         else if fwd.stage.waiting || fwd.stage.transporting then WithFwd(was, f, fwd)
                         else StoppedFwd(WithFwd(was, f, fwd), f)
    {
      hide Inv, StoppedFwd;
      if !fwds[f].news.destinationsFound {
        Undiscovered(f);
        StopAndDestroy(f);
        return;
      }
      GrowPaths(f, Told(fwds[f], Finalize(fwds[f].dests)));
      if fwds[f].stage.waiting || fwds[f].stage.transporting {
        return;
      }
      StopAndDestroy(f);
    }

    /** A request without destinations has no opener. */
    lemma Undiscovered(f: nat)
      requires Inv() && f in fwds && !fwds[f].news.destinationsFound
      ensures !fwds[f].stage.waiting
    {
      hide Inv;
      Linked(f);
    }

    // --- Runs ---

    constructor (cfg: Config, now: real, curtime: int)
      requires now >= 0.0
      ensures Inv() && this.cfg == cfg && this.now == now && this.curtime == curtime && fresh(this)
      ensures jobs == map[] && fwds == map[] && nextJob == 0 && settled == map[]
      ensures concurrencyLevel == 0 && lastAllowanceStart == 0.0
    {
      this.cfg, this.now, this.curtime := cfg, now, curtime;
      jobs, nextJob, fwds, calls, nextCall := map[], 0, map[], map[], 0;
      primeGiver, spareGiver := Enforcer([], 0.0, [], [], []), Enforcer([], 0.0, [], [], []);
      lastAllowanceStart, concurrencyLevel, settled := 0.0, 0, map[];
      new;
      hide QueueOK, LinksOK, JobsOK, CallsOK, Holders, SettledOK, Turns, Numbered, Extends;
      NothingYet(cfg);
    }

    method Tick(now: real, curtime: int)
      requires Inv() && now >= 0.0
      modifies this`now, this`curtime
      ensures Inv() && this.now == now && this.curtime == curtime
    {
      hide QueueOK, CallsOK, LinksOK, Holders, JobsOK, LimitKept, LimitReached, SettledOK, InTurn, Numbered, Extends;
      this.now, this.curtime := now, curtime;
    }

    /** Fires a scheduled enforcer call. */
    method Fire(c: nat, pconnPrime: bool, pconnSpare: bool)
      requires Inv() && c in calls
      modifies this`jobs, this`fwds, this`calls, this`nextCall, this`primeGiver, this`spareGiver,
               this`concurrencyLevel, this`lastAllowanceStart
      ensures Inv() && jobs.Keys == old(jobs.Keys)
      ensures old(calls[c].job) in jobs && jobs[old(calls[c].job)].wait.callback.None?
    {
      hide Inv, Concluded, Checked, Allowed;
      var j, kind := calls[c].job, calls[c].kind;
      CallTarget(c);
      ghost var was, m := At(j), Around(pconnPrime, pconnSpare);
      if kind.PrimeChance? {
        NoteGavePrimeItsChance(j, pconnPrime, pconnSpare);
        CheckedCallsNobody(was.(job := ClearWait(was.job)), m);
        ConcludedCallsNobody(Checked(was.(job := ClearWait(was.job)), m), At(j), cfg, curtime);
      } else {
        ghost var m := Around(false, pconnSpare);
        NoteSpareAllowance(j, pconnSpare);
        AllowedCallsNobody(was, m);
        ConcludedCallsNobody(Allowed(was, m), At(j), cfg, curtime);
      }
    }

    lemma CallTarget(c: nat)
      requires Inv() && c in calls
      ensures calls[c].job in jobs && !jobs[calls[c].job].life.ended && jobs[calls[c].job].wait.callback == Some(c)
      ensures jobs[calls[c].job].setup.fwd in fwds
    {
      hide QueueOK, LinksOK, Holders, LimitKept, LimitReached, BaseOK, StableOK, SettledOK, InTurn, Numbered, Extends;
      assert JobOK(jobs[calls[c].job], fwds, calls, cfg);
    }

    predicate LiveJob(j: nat)
      reads this
    {
      j in jobs && !jobs[j].life.ended && jobs[j].setup.fwd in fwds
    }

    predicate Carrying(f: nat)
      reads this
    {
      f in fwds && fwds[f].stage.transporting && !fwds[f].stage.dead && !fwds[f].stage.waiting
    }

    // --- Jobs that nothing will change ---

    /** Notes a job that has ended, or that nothing to come concerns. */
    ghost method Settle(j: nat)
      requires Inv() && j in jobs && (jobs[j].life.ended || Forgotten(jobs, fwds, cfg, spareGiver.waitEnd, j))
      modifies this`settled
      ensures Inv() && settled == old(settled)[j := jobs[j]]
    {
      hide QueueOK, CallsOK, LinksOK, Holders, JobsOK, LimitKept, LimitReached, InTurn, Forgotten;
      settled := settled[j := jobs[j]];
    }

    /** Removes jobs from the record. */
    ghost method Unsettle(js: set<nat>)
      requires Inv()
      modifies this`settled
      ensures Inv() && settled == old(settled) - js
    {
      hide QueueOK, CallsOK, LinksOK, Holders, JobsOK, LimitKept, LimitReached, InTurn, Forgotten;
      settled := settled - js;
    }

    /** Without a gap between spares, no event wakes up their list. */
    lemma NoGap()
      requires Inv() && cfg.connectGap <= 0
      ensures spareGiver.waitEnd <= 0.0
    {
      hide QueueOK, CallsOK, LinksOK, Holders, JobsOK, LimitKept, LimitReached, InTurn, SettledOK;
    }

    lemma SettledAre(j: nat)
      requires Inv() && j in settled
      ensures j in jobs && jobs[j] == settled[j]
      ensures (jobs[j].life.ended || Forgotten(jobs, fwds, cfg, spareGiver.waitEnd, j))
    {
      hide QueueOK, CallsOK, LinksOK, Holders, JobsOK, LimitKept, LimitReached, InTurn, Forgotten;
    }

    /** Giving up a request that no settled job works for disturbs none of them. */
    lemma NobodyMinds(f: nat)
      requires Inv() && forall j :: j in settled ==> settled[j].setup.fwd != f
      ensures OpenerUnsettled(f)
    {
      hide Inv, FwdOK, JobOK;
      if f in fwds && fwds[f].stage.waiting && fwds[f].opener.Some? && fwds[f].opener.value in settled {
        SettledAre(fwds[f].opener.value);
        OpenerOf(f);
      }
    }

    lemma OpenerOf(f: nat)
      requires Inv() && f in fwds && fwds[f].opener.Some?
      ensures fwds[f].opener.value in jobs && jobs[fwds[f].opener.value].setup.fwd == f
    {
      hide Inv, JobOK, PathsOK;
      Linked(f);
    }

    /** One event of the main loop; an event that cannot happen now changes nothing. */
    method Step(e: Event)
      requires Inv()
      modifies this
      ensures Inv() && settled == old(settled) - Disturbed(old(settled), e)
    {
      hide Inv, Concluded, Checked, Allowed, Touches, Progressed, Answered, Retried, Proceeded, StoppedFwd;
      Unsettle(Disturbed(settled, e));
      if e.Time? {
        if e.now >= 0.0 { Tick(e.now, e.curtime); }
      } else if e.CallDue? {
        if e.c in calls { Fire(e.c, e.p, e.s); }
      } else if e.WaitOver? {
        if Giver(e.kind).waitEnd > 0.0 { ghost var n := NoteWaitOver(e.kind); }
      } else if e.Start? || e.Candidates? || e.StopRequest? || e.PrimeDone? || e.SpareDone? {
        StepOfJob(e);
      } else {
        if e.Abort? { NobodyMinds(e.f); }
        StepOfRequest(e);
      }
    }

    method StepOfJob(e: Event)
      requires Inv() && (e.Start? || e.Candidates? || e.StopRequest? || e.PrimeDone? || e.SpareDone?)
      requires e.StopRequest? ==> e.j !in settled
      modifies this`jobs, this`fwds, this`calls, this`nextCall, this`primeGiver, this`spareGiver,
               this`concurrencyLevel, this`lastAllowanceStart
      ensures Inv()
    {
      hide Inv, Concluded, Checked, Allowed, Touches;
      match e {
        case Start(j, p, s) => if LiveJob(j) && !jobs[j].life.started { StartJob(j, p, s); }
        case Candidates(j, p, s) =>
          if LiveJob(j) && jobs[j].life.started && fwds[jobs[j].setup.fwd].news.notified {
            Unsettled(j);
            NoteCandidatesChange(j, p, s);
          }
        case StopRequest(j) => if LiveJob(j) && jobs[j].life.started { HandleStopRequest(j); }
        case PrimeDone(j, ok, p, s) =>
          if LiveJob(j) && jobs[j].prime.Connecting? { ghost var r := NotePrimeConnectDone(j, ok, p, s); }
        case SpareDone(j, ok, p, s) =>
          if LiveJob(j) && jobs[j].spare.Connecting? { ghost var r := NoteSpareConnectDone(j, ok, p, s); }
      }
    }

    method StepOfRequest(e: Event)
      requires Inv() && !(e.Time? || e.CallDue? || e.WaitOver?)
      requires !(e.Start? || e.Candidates? || e.StopRequest? || e.PrimeDone? || e.SpareDone?)
      requires e.Abort? ==> OpenerUnsettled(e.f)
      modifies this`jobs, this`fwds, this`nextJob
      ensures Inv()
    {
      hide Inv, Answered, Retried, Proceeded, StoppedFwd, OpenerUnsettled;
      match e {
        case Request(f, bumped) => if f !in fwds { NewRequest(f, bumped); }
        case Destination(f, path) =>
          if f in fwds && !fwds[f].stage.dead && !fwds[f].dests.finalized { NoteDestination(f, path); }
        case Pinned(f, ok) => if f in fwds && !fwds[f].stage.dead && !fwds[f].news.destinationsFound { UsePinned(f, ok); }
        case DestinationsEnd(f) =>
          if f in fwds && !fwds[f].stage.dead && !fwds[f].dests.finalized { NoteDestinationsEnd(f); }
        case Abort(f) => if f in fwds { StopAndDestroy(f); }
        case Delivery(f, closed, retryable) =>
          if f in fwds && fwds[f].stage.waiting && fwds[f].opener.Some? && fwds[f].opener.value in jobs
             && jobs[fwds[f].opener.value].life.ended {
            NoteConnection(f, closed, retryable);
          }
        case Synced(f) => if Carrying(f) { SyncWithServerConn(f); }
        case TransportEnd(f, zeroReply, retryable) => if Carrying(f) { TransportEnded(f, zeroReply, retryable); }
        case ReplyEnd(f, reforwardable) => if Carrying(f) { Complete(f, reforwardable); }
      }
    }

    /** Every run keeps the invariant: any events, in any order. A settled job
      * that no event asks to stop or gives up stays settled. */
    method Run(events: seq<Event>)
      requires Inv()
      modifies this
      ensures Inv() && StillSettled(old(settled), settled, events)
    {
      hide Inv, StillSettled, Disturbed;
      NoneDisturbed(settled);
      for i := 0 to |events|
        invariant Inv() && StillSettled(old(settled), settled, events[..i])
      {
        assert events[..i + 1] == events[..i] + [events[i]];
        StillSettledNext(old(settled), settled, events[..i], events[i]);
        Step(events[i]);
      }
      assert events[..|events|] == events;
    }
  }
}
