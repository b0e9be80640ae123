/** The state of Happy Eyeballs connection opening: jobs, forwarding requests,
  * wait queues, and the invariants that relate them. */
module HappyModel {
  import opened Wrappers
  import opened ResolvedPeers
  import opened Sequences

  /** The squid.conf settings the protocol obeys. */
  datatype Config = Config(
    connectTimeout: int, connectGap: int, connectLimit: int,
    workers: nat, forwardMaxTries: nat, forwardTimeout: int)

  /** The two order enforcers, named after the wait they manage. */
  datatype Kind = PrimeChance | SpareAllowance

  /** A FIFO list of waiting jobs and the time of the expected wake-up event (or
    * zero). Three fields record history: `joins` the jobs that ever joined the
    * list, `tickets` where in `joins` each waiting job is, and `served` where
    * the jobs are that were called back. */
  datatype Enforcer = Enforcer(queue: seq<nat>, waitEnd: real, joins: seq<nat>, tickets: seq<nat>, served: seq<nat>)

  /** A scheduled noteGavePrimeItsChance or noteSpareAllowance call. */
  datatype Call = Call(job: nat, kind: Kind)

  datatype Attempt = Idle | Connecting(pos: nat)

  /** The final result sent to the initiator. */
  datatype Answer = Answer(conn: Option<nat>, open: bool, error: bool, nTries: int, reused: bool)

  /** The spare track's wait: a pending call and four mutually exclusive reasons. */
  datatype SpareWait = SpareWait(
    callback: Option<nat>, toGivePrimeItsChance: bool, forSpareAllowance: bool, forPrimesToFail: bool, forNewPeer: bool)

  const NoWait := SpareWait(None, false, false, false, false)

  /** What the initiator chose when it created the job. */
  datatype Setup = Setup(fwd: nat, firstTries: int, fwdStart: int, allowPconn: bool, sslBumped: bool)

  /** Where a job is in its life. */
  datatype Life = Life(started: bool, stopped: bool, ended: bool)

  /** Whether the job still has its callback, and whether the initiator has lost interest. */
  datatype Client = Client(hasCallback: bool, canceled: bool)

  /** What the job may do on the spare track. One field records history:
    * `keptAllowance` that the allowed spare was an idle persistent connection. */
  datatype Permit = Permit(ignoreSpareRestrictions: bool, gotSpareAllowance: bool, keptAllowance: bool)

  datatype Job = Job(
    setup: Setup, life: Life, client: Client, answers: seq<Answer>,
    prime: Attempt, spare: Attempt, currentPeer: Option<Path>,
    wait: SpareWait, lastFailed: Option<nat>, permit: Permit,
    nTries: int, ranOut: bool, primeStart: real)

  datatype Race = RaceImpossible | RacePossible | RaceHappened

  /** Whether the request waits for its opener, carries a connection, or is over. */
  datatype Stage = Stage(waiting: bool, transporting: bool, dead: bool)

  /** Whether the opener is to be told about destinations, and whether there ever were any. */
  datatype News = News(notified: bool, destinationsFound: bool)

  /** A forwarding request. Two fields record history: `triesLog` all the values
    * that nTries has had, `handled` the positions of paths whose attempts
    * finished or whose connections were handed over. */
  datatype Fwd = Fwd(
    nTries: int, triesLog: seq<int>, stage: Stage, opener: Option<nat>, dests: Dests, news: News, dontRetry: bool,
    race: Race, receipt: Option<nat>, sslBumped: bool, startT: int, handled: set<nat>)

  /** What can happen next. The flags p and s say whether an idle persistent
    * connection is at hand for a prime and for a spare path. */
  datatype Event =
    | Time(now: real, curtime: int)
    | Request(f: nat, bumped: bool)
    | Destination(f: nat, path: Path)
    | Pinned(f: nat, ok: bool)
    | DestinationsEnd(f: nat)
    | Abort(f: nat)
    | Delivery(f: nat, closed: bool, retryable: bool)
    | Synced(f: nat)
    | TransportEnd(f: nat, zeroReply: bool, retryable: bool)
    | ReplyEnd(f: nat, reforwardable: bool)
    | Start(j: nat, p: bool, s: bool)
    | Candidates(j: nat, p: bool, s: bool)
    | StopRequest(j: nat)
    | PrimeDone(j: nat, ok: bool, p: bool, s: bool)
    | SpareDone(j: nat, ok: bool, p: bool, s: bool)
    | CallDue(c: nat, p: bool, s: bool)
    | WaitOver(kind: Kind)

  /** The settled jobs whose rest the event can disturb: a job that is asked to
    * stop, or whose initiator gives up. */
  ghost function Disturbed(settled: map<nat, Job>, e: Event): set<nat> {
    match e
    case StopRequest(j) => {j}
    case Abort(f) => set j | j in settled && settled[j].setup.fwd == f
    case _ => {}
  }

  /** Only jobs that the events disturb are removed from the record. */
  ghost predicate StillSettled(was: map<nat, Job>, now: map<nat, Job>, events: seq<Event>) {
    && (forall j :: j in now ==> j in was && now[j] == was[j])
    && (forall j :: j in was && !Disturbs(events, j, was[j].setup.fwd) ==> j in now)
  }

  lemma NoneDisturbed(settled: map<nat, Job>)
    ensures StillSettled(settled, settled, [])
  {
  }

  lemma StillSettledNext(was: map<nat, Job>, now: map<nat, Job>, events: seq<Event>, e: Event)
    requires StillSettled(was, now, events)
    ensures StillSettled(was, now - Disturbed(now, e), events + [e])
  {
    var now', events' := now - Disturbed(now, e), events + [e];
    forall j | j in was && !Disturbs(events', j, was[j].setup.fwd)
      ensures j in now'
    {
      forall i | 0 <= i < |events|
        ensures events[i] != StopRequest(j) && events[i] != Abort(was[j].setup.fwd)
      {
        assert events'[i] == events[i];
      }
      assert events'[|events|] == e;
    }
  }

  /** Whether an event asks the job to stop or gives up the request it works for. */
  ghost predicate Disturbs(events: seq<Event>, j: nat, f: nat) {
    exists i :: 0 <= i < |events| && (events[i] == StopRequest(j) || events[i] == Abort(f))
  }

  // --- Waiting lists ---

  /** Jobs and calls are named in the order of creation. */
  ghost predicate Numbered(jobs: map<nat, Job>, calls: map<nat, Call>, nextJob: nat, nextCall: nat) {
    (forall c :: c in calls ==> c < nextCall) && (forall k :: k in jobs ==> k < nextJob)
  }

  /** Scheduled calls stay scheduled. */
  ghost predicate Extends(calls: map<nat, Call>, calls': map<nat, Call>) {
    forall c :: c in calls ==> c in calls' && calls'[c] == calls[c]
  }

  lemma ExtendsChain(a: map<nat, Call>, b: map<nat, Call>, c: map<nat, Call>)
    requires Extends(a, b) && Extends(b, c)
    ensures Extends(a, c)
  {
  }

  lemma NumberedFresh(jobs: map<nat, Job>, calls: map<nat, Call>, nextJob: nat, nextCall: nat)
    requires Numbered(jobs, calls, nextJob, nextCall)
    ensures nextJob !in jobs && nextCall !in calls
  {
  }

  lemma NumberedJob(jobs: map<nat, Job>, calls: map<nat, Call>, nextJob: nat, nextCall: nat, j: nat, job: Job)
    requires Numbered(jobs, calls, nextJob, nextCall) && j in jobs
    ensures Numbered(jobs[j := job], calls, nextJob, nextCall)
  {
  }

  lemma NumberedNew(jobs: map<nat, Job>, calls: map<nat, Call>, nextJob: nat, nextCall: nat, job: Job)
    requires Numbered(jobs, calls, nextJob, nextCall)
    ensures Numbered(jobs[nextJob := job], calls, nextJob + 1, nextCall)
  {
  }

  lemma NumberedCall(jobs: map<nat, Job>, calls: map<nat, Call>, nextJob: nat, nextCall: nat, call: Call)
    requires Numbered(jobs, calls, nextJob, nextCall)
    ensures Numbered(jobs, calls[nextCall := call], nextJob, nextCall + 1) && Extends(calls, calls[nextCall := call])
  {
  }

  lemma NumberedLess(jobs: map<nat, Job>, calls: map<nat, Call>, nextJob: nat, nextCall: nat, c: nat)
    requires Numbered(jobs, calls, nextJob, nextCall)
    ensures Numbered(jobs, calls - {c}, nextJob, nextCall)
  {
  }

  ghost predicate Increasing(s: seq<nat>) {
    forall a, b :: 0 <= a < b < |s| ==> s[a] < s[b]
  }

  /** The history of a list: each waiting job holds the ticket it got when it
    * joined, and tickets are served in the order of joining, before all those
    * that still wait. */
  ghost predicate Turns(queue: seq<nat>, joins: seq<nat>, tickets: seq<nat>, served: seq<nat>) {
    && |tickets| == |queue|
    && Increasing(served + tickets)
    && (forall i :: 0 <= i < |tickets| ==> tickets[i] < |joins| && joins[tickets[i]] == queue[i])
    && (forall i :: 0 <= i < |served| ==> served[i] < |joins|)
  }

  ghost predicate InTurn(e: Enforcer) { Turns(e.queue, e.joins, e.tickets, e.served) }

  /** A job joins the list at its end. */
  function Join(e: Enforcer, j: nat): Enforcer {
    e.(queue := e.queue + [j], joins := e.joins + [j], tickets := e.tickets + [|e.joins|])
  }

  /** The front job leaves the list because it is called back. */
  function Serve(e: Enforcer): Enforcer
    requires e.queue != [] && e.tickets != []
  {
    e.(queue := e.queue[1..], tickets := e.tickets[1..], served := e.served + [e.tickets[0]])
  }

  lemma ServeKeeps(e: Enforcer)
    requires e.queue != [] && e.tickets != []
    ensures Serve(e).queue == e.queue[1..] && Serve(e).waitEnd == e.waitEnd
  {
  }

  /** The job at the given position leaves the list. */
  function Leave(e: Enforcer, at: nat): Enforcer
    requires at < |e.queue| && |e.tickets| == |e.queue|
  {
    e.(queue := e.queue[..at] + e.queue[at + 1..], tickets := e.tickets[..at] + e.tickets[at + 1..])
  }

  lemma TurnJoin(e: Enforcer, j: nat)
    requires InTurn(e)
    ensures InTurn(Join(e, j))
  {
    var old', new' := e.served + e.tickets, e.served + (e.tickets + [|e.joins|]);
    assert new' == old' + [|e.joins|];
    forall i | 0 <= i < |old'|
      ensures old'[i] < |e.joins|
    {
      assert i < |e.served| ==> old'[i] == e.served[i];
      assert i >= |e.served| ==> old'[i] == e.tickets[i - |e.served|];
    }
  }

  lemma TurnServe(e: Enforcer)
    requires InTurn(e) && e.queue != []
    ensures e.tickets != [] && InTurn(Serve(e))
  {
    assert e.served + e.tickets == (e.served + [e.tickets[0]]) + e.tickets[1..];
  }

  lemma TurnLeave(e: Enforcer, at: nat)
    requires InTurn(e) && at < |e.queue|
    ensures |e.tickets| == |e.queue| && InTurn(Leave(e, at))
  {
    var all, left := e.served + e.tickets, Leave(e, at);
    var rest := e.served + left.tickets;
    forall a, b | 0 <= a < b < |rest|
      ensures rest[a] < rest[b]
    {
      var n := |e.served| + at;
      assert rest[a] == all[if a < n then a else a + 1] && rest[b] == all[if b < n then b else b + 1];
    }
    forall i | 0 <= i < |left.tickets|
      ensures left.tickets[i] < |e.joins| && e.joins[left.tickets[i]] == left.queue[i]
    {
      assert left.tickets[i] == e.tickets[if i < at then i else i + 1];
    }
  }

  /** Nobody is overtaken. */
  lemma ServedInTurn(e: Enforcer, a: nat, b: nat)
    requires InTurn(e)
    ensures |e.tickets| == |e.queue|
    ensures forall i :: 0 <= i < |e.queue| ==> e.tickets[i] < |e.joins| && e.queue[i] == e.joins[e.tickets[i]]
    ensures a < b && b in e.served ==> a !in e.tickets
    ensures a < b < |e.served| ==> e.served[a] < e.served[b]
    ensures a < b < |e.tickets| ==> e.tickets[a] < e.tickets[b]
  {
    var all := e.served + e.tickets;
    forall i, k | 0 <= i < |e.served| && 0 <= k < |e.tickets|
      ensures e.served[i] < e.tickets[k]
    {
      assert all[i] < all[|e.served| + k];
    }
    if a < b < |e.served| { assert all[a] < all[b]; }
    if a < b < |e.tickets| { assert all[|e.served| + a] < all[|e.served| + b]; }
  }

  /** Whether a pause (in milliseconds, for all workers together) that began at
    * the given time is not over yet. */
  predicate Pausing(cfg: Config, start: real, now: real, msec: int) {
    msec > 0 && Min(start, now) + Pause(cfg, msec) > now
  }

  function Pause(cfg: Config, msec: int): real { msec as real * cfg.workers as real / 1000.0 }

  // --- Single job ---

  predicate Waiting(wait: SpareWait) {
    wait.toGivePrimeItsChance || wait.forSpareAllowance || wait.forPrimesToFail || wait.forNewPeer
  }

  function ReasonCount(wait: SpareWait): nat {
    (if wait.toGivePrimeItsChance then 1 else 0) + (if wait.forSpareAllowance then 1 else 0)
    + (if wait.forPrimesToFail then 1 else 0) + (if wait.forNewPeer then 1 else 0)
  }

  /** Whether the job is on the list of the given enforcer. */
  predicate OnList(wait: SpareWait, kind: Kind) { WaitsFor(wait, kind) && wait.callback.None? }

  function ClearFlag(wait: SpareWait, kind: Kind): SpareWait {
    if kind.PrimeChance? then wait.(toGivePrimeItsChance := false) else wait.(forSpareAllowance := false)
  }

  /** The reason is gone, and so is its pending call. */
  function WithoutFlag(job: Job, kind: Kind): Job {
    job.(wait := ClearFlag(job.wait, kind).(callback := None))
  }

  function WithCall(job: Job, c: nat): Job { job.(wait := job.wait.(callback := Some(c))) }

  predicate WaitsFor(wait: SpareWait, kind: Kind) {
    if kind.PrimeChance? then wait.toGivePrimeItsChance else wait.forSpareAllowance
  }

  // Assignments to single flags.
  function Begun(job: Job): Job { job.(life := job.life.(started := true)) }
  function Halted(job: Job): Job { job.(life := job.life.(stopped := true)) }
  function Over(job: Job): Job { job.(life := job.life.(ended := true)) }
  function Disowned(job: Job): Job { job.(client := job.client.(canceled := true)) }
  function WithGot(job: Job, got: bool): Job { job.(permit := job.permit.(gotSpareAllowance := got)) }
  function WithKept(job: Job, kept: bool): Job { job.(permit := job.permit.(keptAllowance := kept)) }
  function Lifted(job: Job): Job { job.(permit := job.permit.(ignoreSpareRestrictions := true)) }
  function WithNotified(f: Fwd, b: bool): Fwd { f.(news := f.news.(notified := b)) }
  function Failed(job: Job, pos: nat): Job { job.(lastFailed := Some(pos)) }

  function ClearWait(job: Job): Job {
    job.(wait := NoWait)
  }

  function InFlight(job: Job): nat {
    (if job.prime.Connecting? then 1 else 0) + (if job.spare.Connecting? then 1 else 0)
  }

  /** An allowance is out: its callback is pending, or the job has recorded it. */
  predicate PendingAllowance(job: Job) { job.wait.forSpareAllowance && job.wait.callback.Some? }
  predicate Holds(job: Job) { PendingAllowance(job) || job.permit.gotSpareAllowance }

  function HeldBy(job: Job): nat { if Holds(job) then 1 else 0 }

  function Max(a: int, b: int): int { if a < b then b else a }
  function Min(a: real, b: real): real { if a < b then a else b }

  function TriesLimit(firstTries: int, cfg: Config): int { Max(firstTries, cfg.forwardMaxTries + 1) }

  predicate AnswerOK(a: Answer, firstTries: int, cfg: Config) {
    && (a.error <==> !a.open)
    && (a.open ==> a.conn.Some?)
    && firstTries <= a.nTries <= TriesLimit(firstTries, cfg)
  }

  /** At most one answer, sent exactly when the callback is given up, unless it was canceled. */
  predicate AnswersOK(hasCallback: bool, canceled: bool, answers: seq<Answer>, firstTries: int, cfg: Config) {
    && (hasCallback ==> answers == [])
    && (!hasCallback ==> |answers| == 1 || (canceled && answers == []))
    && (answers != [] ==> AnswerOK(answers[0], firstTries, cfg))
  }

  /** The connection of a success answer was handed over. */
  predicate HandedOver(answers: seq<Answer>, handled: set<nat>) {
    answers != [] && answers[0].open ==> answers[0].conn.Some? && answers[0].conn.value in handled
  }

  predicate TriesOK(job: Job, cfg: Config) {
    job.setup.firstTries <= job.nTries && job.nTries + InFlight(job) <= TriesLimit(job.setup.firstTries, cfg)
  }

  /** Where a path is: exactly one of available, on a track, or handled. */
  predicate PathPlaced(prime: Attempt, spare: Attempt, slot: Slot, pos: nat, handled: set<nat>) {
    (if slot.available then 1 else 0)
    + (if prime == Connecting(pos) then 1 else 0)
    + (if spare == Connecting(pos) then 1 else 0)
    + (if pos in handled then 1 else 0) == 1
  }

  predicate PathsOK(prime: Attempt, spare: Attempt, slots: seq<Slot>, handled: set<nat>) {
    && (prime.Connecting? ==> prime.pos < |slots|)
    && (spare.Connecting? ==> spare.pos < |slots|)
    && (forall pos :: pos in handled ==> pos < |slots|)
    && (forall pos :: 0 <= pos < |slots| ==> PathPlaced(prime, spare, slots[pos], pos, handled))
  }

  /** The one way to be left with an allowance and no spare attempt: the allowed
    * spare was an idle persistent connection. */
  predicate KeepsAllowance(job: Job) {
    && job.permit.gotSpareAllowance && job.spare.Idle? && !job.client.hasCallback
    && (job.client.canceled || (job.answers != [] && job.answers[0].reused))
  }

  /** What holds of a live job even in the middle of a step. */
  predicate BaseOK(job: Job, f: Fwd, calls: map<nat, Call>, cfg: Config) {
    && ReasonCount(job.wait) <= 1
    && (job.wait.callback.Some? ==> job.wait.callback.value in calls && WaitsFor(job.wait, calls[job.wait.callback.value].kind))
    && (job.spare.Connecting? ==> !Waiting(job.wait))
    && (Waiting(job.wait) || InFlight(job) > 0 ==> job.currentPeer.Some? && job.life.started)
    && (job.wait.forSpareAllowance && job.currentPeer.Some? ==> HaveSpare(f.dests, job.currentPeer.value))
    && (job.wait.forPrimesToFail ==> cfg.connectLimit == 0)
    && (job.wait.forNewPeer && job.currentPeer.Some? ==> DoneWithSpares(f.dests, job.currentPeer.value))
    && (job.permit.gotSpareAllowance ==> !Waiting(job.wait) && (job.spare.Connecting? || job.permit.keptAllowance))
    && (job.permit.keptAllowance ==> KeepsAllowance(job))
    && TriesOK(job, cfg)
    && AnswersOK(job.client.hasCallback, job.client.canceled, job.answers, job.setup.firstTries, cfg)
    && HandedOver(job.answers, f.handled)
    && PathsOK(job.prime, job.spare, f.dests.slots, f.handled)
  }

  /** Something will make the job step again: a pending start, an attempt, a
    * wait that an enforcer manages, a scheduled or certain notification about
    * destinations, or a stop request. Waiting for primes to fail is the exception. */
  predicate Active(job: Job, f: Fwd) {
    || !job.life.started || job.client.canceled
    || InFlight(job) > 0
    || job.wait.toGivePrimeItsChance || job.wait.forSpareAllowance
    || f.news.notified || !f.dests.finalized
    || (job.wait.forPrimesToFail && job.currentPeer.Some? && OnlySpares(f.dests, job.currentPeer.value))
  }

  /** There is a spare for the peer, and a prime attempt cannot start. */
  predicate OnlySpares(d: Dests, cur: Path) {
    HaveSpare(d, cur) && FindPrime(d, cur).pos == |d.slots|
  }

  /** What holds in addition between the steps of a live job. */
  predicate StableOK(job: Job, f: Fwd) {
    && job.client.hasCallback
    && !job.life.stopped
    && Active(job, f)
    && (job.wait.toGivePrimeItsChance ==> job.prime.Connecting?)
    && (if job.life.started then job.currentPeer.Some?
        else job.currentPeer.None? && !Empty(f.dests))
  }

  /** What remains of a job that ended. */
  predicate EndedOK(job: Job, cfg: Config) {
    && !Waiting(job.wait) && job.wait.callback.None?
    && InFlight(job) == 0
    && (job.client.hasCallback ==> job.client.canceled)
    && (job.permit.gotSpareAllowance <==> job.permit.keptAllowance)
    && (job.permit.keptAllowance ==> KeepsAllowance(job))
    && AnswersOK(job.client.hasCallback, job.client.canceled, job.answers, job.setup.firstTries, cfg)
  }

  predicate JobOK(job: Job, fwds: map<nat, Fwd>, calls: map<nat, Call>, cfg: Config) {
    && job.setup.fwd in fwds
    && (if job.life.ended then EndedOK(job, cfg)
        else BaseOK(job, fwds[job.setup.fwd], calls, cfg) && StableOK(job, fwds[job.setup.fwd]))
  }

  /** Jobs and forwarding requests that point at each other. */
  predicate LinkOK(k: nat, job: Job, fwds: map<nat, Fwd>) {
    && job.setup.fwd in fwds
    && (!job.life.ended ==>
          && fwds[job.setup.fwd].opener == Some(k)
          && !fwds[job.setup.fwd].stage.transporting
          && (fwds[job.setup.fwd].stage.waiting <==> !job.client.canceled)
          && (fwds[job.setup.fwd].stage.dead <==> job.client.canceled))
  }

  /** The count never went down. */
  predicate TriesLogged(log: seq<int>, nTries: int) {
    && log != [] && log[|log| - 1] == nTries
    && forall a, b :: 0 <= a <= b < |log| ==> log[a] <= log[b]
  }

  predicate FwdOK(f: nat, fwd: Fwd, jobs: map<nat, Job>, cfg: Config) {
    && 0 <= fwd.nTries <= cfg.forwardMaxTries + 1
    && TriesLogged(fwd.triesLog, fwd.nTries)
    && (fwd.stage.waiting ==> fwd.opener.Some? && !fwd.stage.dead && !fwd.stage.transporting)
    && (fwd.opener.Some? ==> fwd.opener.value in jobs && jobs[fwd.opener.value].setup.fwd == f)
    && (fwd.stage.waiting ==> jobs[fwd.opener.value].setup.firstTries == fwd.nTries && !jobs[fwd.opener.value].client.canceled)
    && (fwd.receipt.Some? ==> fwd.stage.transporting && fwd.receipt.value in fwd.handled)
    && (fwd.stage.waiting && jobs[fwd.opener.value].life.ended ==> HandedOver(jobs[fwd.opener.value].answers, fwd.handled))
    && (!fwd.news.destinationsFound ==> fwd.nTries == 0 && fwd.opener.None? && !fwd.stage.transporting)
    && (fwd.opener.None? || jobs[fwd.opener.value].life.ended ==> PathsOK(Idle, Idle, fwd.dests.slots, fwd.handled))
  }

  // --- Collections ---

  /** A job is on the list exactly when it waits for that reason and has no pending call. */
  ghost predicate QueueOK(jobs: map<nat, Job>, q: seq<nat>, kind: Kind) {
    && NoRepeats(q)
    && (forall j :: j in q <==> j in jobs && OnList(jobs[j].wait, kind))
  }

  /** Scheduled calls and the jobs that expect them point at each other. */
  ghost predicate CallsOK(jobs: map<nat, Job>, calls: map<nat, Call>) {
    && (forall c :: c in calls ==> calls[c].job in jobs && jobs[calls[c].job].wait.callback == Some(c))
    && (forall j :: j in jobs && jobs[j].wait.callback.Some? ==>
                      jobs[j].wait.callback.value in calls && calls[jobs[j].wait.callback.value].job == j)
  }

  /** The given jobs were scheduled one after another, starting with call `c`. */
  ghost predicate CalledInOrder(calls: map<nat, Call>, js: seq<nat>, c: nat, kind: Kind) {
    forall k :: c <= k < c + |js| ==> k in calls && calls[k] == Call(js[k - c], kind)
  }

  lemma CalledNone(calls: map<nat, Call>, c: nat, kind: Kind)
    ensures CalledInOrder(calls, [], c, kind)
  {
  }

  lemma CalledNext(calls: map<nat, Call>, js: seq<nat>, c: nat, kind: Kind, x: nat)
    requires CalledInOrder(calls, js, c, kind)
    ensures CalledInOrder(calls[c + |js| := Call(x, kind)], js + [x], c, kind)
  {
    var calls', js' := calls[c + |js| := Call(x, kind)], js + [x];
    forall k | c <= k < c + |js'|
      ensures k in calls' && calls'[k] == Call(js'[k - c], kind)
    {
      if k < c + |js| {
        assert k in calls && calls[k] == Call(js[k - c], kind);
        assert js'[k - c] == js[k - c];
      } else {
        assert js'[k - c] == x;
      }
    }
  }

  /** How far a checkpoint has got: the first `n` jobs of the list are called, in
    * order, and no scheduled call is lost. */
  ghost predicate Progressed(q: seq<nat>, n: nat, rest: seq<nat>, kind: Kind,
                             calls: map<nat, Call>, calls': map<nat, Call>, next: nat, next': nat) {
    && n <= |q| && rest == q[n..] && next' == next + n
    && CalledInOrder(calls', q[..n], next, kind) && Extends(calls, calls')
  }

  lemma ProgressStarts(q: seq<nat>, kind: Kind, calls: map<nat, Call>, next: nat)
    ensures Progressed(q, 0, q, kind, calls, calls, next, next)
  {
    CalledNone(calls, next, kind);
    assert q[..0] == [];
    assert q[0..] == q;
  }

  lemma ProgressGoesOn(q: seq<nat>, n: nat, rest: seq<nat>, kind: Kind,
                       calls: map<nat, Call>, calls': map<nat, Call>, next: nat, next': nat)
    requires Progressed(q, n, rest, kind, calls, calls', next, next') && rest != []
    requires Extends(calls', calls'[next' := Call(rest[0], kind)])
    ensures Progressed(q, n + 1, rest[1..], kind, calls, calls'[next' := Call(rest[0], kind)], next, next' + 1)
  {
    hide CalledInOrder, Extends;
    CalledNext(calls', q[..n], next, kind, rest[0]);
    assert n < |q| && rest[0] == q[n];
    assert q[..n + 1] == q[..n] + [rest[0]];
    assert rest[1..] == q[n + 1..];
    ExtendsChain(calls, calls', calls'[next' := Call(rest[0], kind)]);
  }

  ghost function Holders(jobs: map<nat, Job>): set<nat> {
    set j | j in jobs && Holds(jobs[j])
  }

  predicate LimitReached(cfg: Config, level: int) {
    if cfg.connectLimit < 0 then false
    else if cfg.connectLimit == 0 then true
    else level * cfg.workers >= cfg.connectLimit
  }

  /** The happy_eyeballs_connect_limit promise, adjusted for SMP workers. */
  predicate LimitKept(cfg: Config, level: int) {
    && level >= 0
    && (cfg.connectLimit == 0 ==> level == 0)
    && (cfg.connectLimit > 0 && level > 0 ==> (level - 1) * cfg.workers < cfg.connectLimit)
  }

  ghost predicate OthersOK(jobs: map<nat, Job>, fwds: map<nat, Fwd>, calls: map<nat, Call>, cfg: Config, j: nat) {
    forall k :: k in jobs && k != j ==> JobOK(jobs[k], fwds, calls, cfg)
  }

  ghost predicate LinksOK(jobs: map<nat, Job>, fwds: map<nat, Fwd>, cfg: Config) {
    && (forall k :: k in jobs ==> LinkOK(k, jobs[k], fwds))
    && (forall f :: f in fwds ==> FwdOK(f, fwds[f], jobs, cfg))
  }

  // --- Changing one job ---

  /** The fields that forwarding requests look at stay as they are. */
  predicate SameIdentity(a: Job, b: Job) {
    a.setup == b.setup && a.life.ended == b.life.ended && a.client.canceled == b.client.canceled && (a.life.ended ==> a.answers == b.answers)
  }

  lemma HoldersAfter(jobs: map<nat, Job>, j: nat, job: Job)
    requires j in jobs
    ensures var h, h' := Holders(jobs), Holders(jobs[j := job]);
            |h'| == |h| - HeldBy(jobs[j]) + HeldBy(job)
  {
    var h, h' := Holders(jobs), Holders(jobs[j := job]);
    if Holds(jobs[j]) == Holds(job) {
      assert h' == h;
    } else if Holds(job) {
      assert h' == h + {j};
    } else {
      assert h' == h - {j};
    }
  }

  lemma LinksAfter(jobs: map<nat, Job>, fwds: map<nat, Fwd>, cfg: Config, j: nat, job: Job)
    requires LinksOK(jobs, fwds, cfg) && j in jobs && SameIdentity(jobs[j], job)
    ensures LinksOK(jobs[j := job], fwds, cfg)
  {
    var jobs' := jobs[j := job];
    forall k | k in jobs'
      ensures LinkOK(k, jobs'[k], fwds)
    {
      assert LinkOK(k, jobs[k], fwds);
    }
    forall f | f in fwds
      ensures FwdOK(f, fwds[f], jobs', cfg)
    {
      assert FwdOK(f, fwds[f], jobs, cfg);
    }
  }

  lemma QueueAfter(jobs: map<nat, Job>, q: seq<nat>, kind: Kind, j: nat, job: Job)
    requires QueueOK(jobs, q, kind) && j in jobs
    requires OnList(job.wait, kind) == OnList(jobs[j].wait, kind)
    ensures QueueOK(jobs[j := job], q, kind)
  {
  }

  lemma QueuePush(jobs: map<nat, Job>, q: seq<nat>, kind: Kind, j: nat, job: Job)
    requires QueueOK(jobs, q, kind) && j in jobs && j !in q
    requires OnList(job.wait, kind)
    ensures QueueOK(jobs[j := job], q + [j], kind)
  {
  }

  lemma QueueErase(jobs: map<nat, Job>, q: seq<nat>, kind: Kind, j: nat, job: Job, at: nat)
    requires QueueOK(jobs, q, kind) && j in jobs && at < |q| && q[at] == j
    requires !OnList(job.wait, kind)
    ensures QueueOK(jobs[j := job], q[..at] + q[at + 1..], kind)
  {
    var r := q[..at] + q[at + 1..];
    forall k
      ensures k in r <==> k in q && k != j
    {
      if k in q && k != j {
        var i :| 0 <= i < |q| && q[i] == k;
        assert r[if i < at then i else i - 1] == k;
      }
    }
  }

  lemma CallsAfter(jobs: map<nat, Job>, calls: map<nat, Call>, j: nat, job: Job)
    requires CallsOK(jobs, calls) && j in jobs && job.wait.callback == jobs[j].wait.callback
    ensures CallsOK(jobs[j := job], calls)
  {
  }

  lemma OthersAfter(jobs: map<nat, Job>, fwds: map<nat, Fwd>, calls: map<nat, Call>, cfg: Config, j: nat, job: Job)
    requires OthersOK(jobs, fwds, calls, cfg, j)
    ensures OthersOK(jobs[j := job], fwds, calls, cfg, j)
  {
  }

  lemma CallAdded(jobs: map<nat, Job>, calls: map<nat, Call>, c: nat, x: nat, kind: Kind)
    requires CallsOK(jobs, calls) && c !in calls && x in jobs && jobs[x].wait.callback.None?
    ensures CallsOK(jobs[x := WithCall(jobs[x], c)], calls[c := Call(x, kind)])
  {
  }

  lemma CallHere(jobs: map<nat, Job>, calls: map<nat, Call>, j: nat)
    requires CallsOK(jobs, calls) && j in jobs && jobs[j].wait.callback.Some?
    ensures jobs[j].wait.callback.value in calls && calls[jobs[j].wait.callback.value].job == j
  {
  }

  lemma OnQueue(jobs: map<nat, Job>, q: seq<nat>, kind: Kind, j: nat)
    requires QueueOK(jobs, q, kind) && j in jobs && OnList(jobs[j].wait, kind)
    ensures j in q
  {
  }

  lemma NotQueued(jobs: map<nat, Job>, q: seq<nat>, kind: Kind, j: nat)
    requires QueueOK(jobs, q, kind) && j in jobs && !OnList(jobs[j].wait, kind)
    ensures j !in q
  {
  }

  lemma CallRemoved(jobs: map<nat, Job>, calls: map<nat, Call>, c: nat, j: nat, job: Job)
    requires CallsOK(jobs, calls) && j in jobs && jobs[j].wait.callback == Some(c) && job.wait.callback.None?
    ensures CallsOK(jobs[j := job], calls - {c})
  {
  }

  lemma OthersAfterCallAdded(jobs: map<nat, Job>, fwds: map<nat, Fwd>, calls: map<nat, Call>, cfg: Config,
                             j: nat, c: nat, x: nat, kind: Kind)
    requires OthersOK(jobs, fwds, calls, cfg, j) && c !in calls
    requires x in jobs && x != j && jobs[x].wait.callback.None? && WaitsFor(jobs[x].wait, kind)
    ensures OthersOK(jobs[x := WithCall(jobs[x], c)], fwds, calls[c := Call(x, kind)], cfg, j)
  {
    var jobs', calls' := jobs[x := WithCall(jobs[x], c)], calls[c := Call(x, kind)];
    forall k | k in jobs' && k != j
      ensures JobOK(jobs'[k], fwds, calls', cfg)
    {
      assert JobOK(jobs[k], fwds, calls, cfg);
    }
  }

  lemma OthersAfterCallRemoved(jobs: map<nat, Job>, fwds: map<nat, Fwd>, calls: map<nat, Call>, cfg: Config,
                               j: nat, c: nat)
    requires OthersOK(jobs, fwds, calls, cfg, j) && CallsOK(jobs, calls)
    requires c in calls ==> calls[c].job == j
    ensures OthersOK(jobs, fwds, calls - {c}, cfg, j)
  {
    forall k | k in jobs && k != j
      ensures JobOK(jobs[k], fwds, calls - {c}, cfg)
    {
      assert JobOK(jobs[k], fwds, calls, cfg);
    }
  }

  /** Changing the paths of a request concerns only its live opener. */
  lemma FwdAfter(jobs: map<nat, Job>, fwds: map<nat, Fwd>, calls: map<nat, Call>, cfg: Config, j: nat, fwd: Fwd)
    requires LinksOK(jobs, fwds, cfg) && OthersOK(jobs, fwds, calls, cfg, j)
    requires j in jobs && !jobs[j].life.ended
    requires fwds[jobs[j].setup.fwd].handled <= fwd.handled
    requires fwd == fwds[jobs[j].setup.fwd].(dests := fwd.dests, handled := fwd.handled, news := fwds[jobs[j].setup.fwd].news.(notified := fwd.news.notified))
    ensures LinksOK(jobs, fwds[jobs[j].setup.fwd := fwd], cfg)
    ensures OthersOK(jobs, fwds[jobs[j].setup.fwd := fwd], calls, cfg, j)
  {
    var f := jobs[j].setup.fwd;
    var fwds' := fwds[f := fwd];
    assert LinkOK(j, jobs[j], fwds);
    forall k | k in jobs
      ensures LinkOK(k, jobs[k], fwds') && (k != j ==> JobOK(jobs[k], fwds', calls, cfg))
    {
      assert LinkOK(k, jobs[k], fwds);
    }
    forall g | g in fwds'
      ensures FwdOK(g, fwds'[g], jobs, cfg)
    {
      assert FwdOK(g, fwds[g], jobs, cfg);
    }
  }

  function OtherKind(kind: Kind): Kind {
    if kind.PrimeChance? then SpareAllowance else PrimeChance
  }

  /** What is known of the job at the front of a list. */
  lemma FrontWaits(jobs: map<nat, Job>, fwds: map<nat, Fwd>, calls: map<nat, Call>, cfg: Config,
                   q: seq<nat>, kind: Kind, j: nat)
    requires QueueOK(jobs, q, kind) && OthersOK(jobs, fwds, calls, cfg, j)
    requires j !in q && q != []
    ensures q[0] != j && q[0] in jobs && !jobs[q[0]].life.ended && jobs[q[0]].wait.callback.None?
    ensures WaitsFor(jobs[q[0]].wait, kind) && !WaitsFor(jobs[q[0]].wait, OtherKind(kind))
    ensures !jobs[q[0]].permit.gotSpareAllowance
  {
    assert q[0] in q;
    assert JobOK(jobs[q[0]], fwds, calls, cfg);
  }

  lemma LimitUp(cfg: Config, level: int)
    requires LimitKept(cfg, level) && !LimitReached(cfg, level)
    ensures LimitKept(cfg, level + 1)
  {
  }

  /** An allowance more does not make the limit less reached. */
  lemma LimitStays(cfg: Config, level: int)
    ensures LimitReached(cfg, level) ==> LimitReached(cfg, level + 1)
  {
    if cfg.connectLimit > 0 {
      assert (level + 1) * cfg.workers == level * cfg.workers + cfg.workers;
    }
  }

  lemma LimitDown(cfg: Config, level: int)
    requires LimitKept(cfg, level) && level > 0
    ensures LimitKept(cfg, level - 1)
  {
    if cfg.connectLimit > 0 && level > 1 {
      assert (level - 1) * cfg.workers == (level - 2) * cfg.workers + cfg.workers;
    }
  }

  /** More allowances do not make the limit less reached. */
  lemma LimitGrows(cfg: Config, a: int, b: int)
    requires LimitReached(cfg, a) && a <= b
    ensures LimitReached(cfg, b)
  {
    if cfg.connectLimit > 0 {
      assert b * cfg.workers == a * cfg.workers + (b - a) * cfg.workers;
    }
  }

  /** The limit is never exceeded: a number of allowances that reaches it is all of them. */
  lemma LimitExact(cfg: Config, a: int, b: int)
    requires LimitReached(cfg, a) && LimitKept(cfg, b) && 0 <= a <= b
    ensures a == b
  {
    if a < b { Proportional(a, b - 1, cfg.workers); }
  }

  lemma Proportional(a: int, b: int, n: nat)
    requires a <= b
    ensures a * n <= b * n
  {
    assert b * n == a * n + (b - a) * n;
  }

  // --- Jobs that nothing will change ---

  /** Jobs that ended with an allowance. */
  ghost function Kept(jobs: map<nat, Job>): set<nat> {
    set j | j in jobs && jobs[j].life.ended && jobs[j].permit.gotSpareAllowance
  }

  /** Nothing scheduled concerns the live job: no attempt is running, no call is
    * pending, and there is no news about destinations to come. */
  predicate Dormant(job: Job, f: Fwd) {
    && job.life.started && !job.life.ended && !job.client.canceled && InFlight(job) == 0
    && job.wait.callback.None? && !job.wait.toGivePrimeItsChance
    && !f.news.notified && f.dests.finalized
  }

  /** The dormant job is not on the list for an allowance, or it is there in vain:
    * jobs that ended keep so many allowances that the limit is reached. */
  ghost predicate Forgotten(jobs: map<nat, Job>, fwds: map<nat, Fwd>, cfg: Config, waitEnd: real, j: nat) {
    && j in jobs && jobs[j].setup.fwd in fwds && Dormant(jobs[j], fwds[jobs[j].setup.fwd])
    && (jobs[j].wait.forSpareAllowance ==> LimitReached(cfg, |Kept(jobs)|) && waitEnd <= 0.0)
  }

  /** The recorded jobs are still as recorded, and nothing will change them. */
  ghost predicate SettledOK(settled: map<nat, Job>, jobs: map<nat, Job>, fwds: map<nat, Fwd>, cfg: Config, waitEnd: real) {
    forall j :: j in settled ==>
                  j in jobs && jobs[j] == settled[j] && (jobs[j].life.ended || Forgotten(jobs, fwds, cfg, waitEnd, j))
  }

  lemma KeptGrows(jobs: map<nat, Job>, jobs': map<nat, Job>, cfg: Config)
    requires forall k :: k in jobs && jobs[k].life.ended ==>
                           k in jobs' && jobs'[k].life.ended && jobs'[k].permit.gotSpareAllowance == jobs[k].permit.gotSpareAllowance
    ensures LimitReached(cfg, |Kept(jobs)|) ==> LimitReached(cfg, |Kept(jobs')|)
  {
    assert Kept(jobs) <= Kept(jobs');
    SubsetSize(Kept(jobs), Kept(jobs'));
    if LimitReached(cfg, |Kept(jobs)|) { LimitGrows(cfg, |Kept(jobs)|, |Kept(jobs')|); }
  }

  lemma {:induction false} SubsetSize(a: set<nat>, b: set<nat>)
    requires a <= b
    ensures |a| <= |b|
    decreases a
  {
    if a != {} {
      var x :| x in a;
      SubsetSize(a - {x}, b - {x});
    }
  }

  /** Settled jobs do not mind changes of a job that is not among them. */
  lemma SettledAfter(settled: map<nat, Job>, jobs: map<nat, Job>, fwds: map<nat, Fwd>, cfg: Config, waitEnd: real,
                     j: nat, job: Job)
    requires SettledOK(settled, jobs, fwds, cfg, waitEnd) && j !in settled
    requires j in jobs && jobs[j].life.ended ==> job.life.ended && job.permit.gotSpareAllowance == jobs[j].permit.gotSpareAllowance
    ensures SettledOK(settled, jobs[j := job], fwds, cfg, waitEnd)
  {
    hide LimitReached, Kept, Dormant;
    KeptGrows(jobs, jobs[j := job], cfg);
  }

  lemma SettledInJobs(settled: map<nat, Job>, jobs: map<nat, Job>, fwds: map<nat, Fwd>, cfg: Config, waitEnd: real, j: nat)
    requires SettledOK(settled, jobs, fwds, cfg, waitEnd) && j !in jobs
    ensures j !in settled
  {
  }

  /** Settled live jobs do not work for the given request. */
  ghost predicate NoneSettled(settled: map<nat, Job>, f: nat) {
    forall j :: j in settled && !settled[j].life.ended ==> settled[j].setup.fwd != f
  }

  lemma SettledAfterFwd(settled: map<nat, Job>, jobs: map<nat, Job>, fwds: map<nat, Fwd>, cfg: Config, waitEnd: real,
                        f: nat, fwd: Fwd)
    requires SettledOK(settled, jobs, fwds, cfg, waitEnd) && NoneSettled(settled, f)
    ensures SettledOK(settled, jobs, fwds[f := fwd], cfg, waitEnd)
  {
    hide LimitReached, Kept, Dormant;
  }

  /** A request with another opener, or none, or with more paths to come has no settled job. */
  lemma OpenerNotSettled(settled: map<nat, Job>, jobs: map<nat, Job>, fwds: map<nat, Fwd>, cfg: Config, waitEnd: real,
                         f: nat)
    requires SettledOK(settled, jobs, fwds, cfg, waitEnd) && LinksOK(jobs, fwds, cfg)
    requires f in fwds ==>
               || fwds[f].opener.None? || fwds[f].opener.value !in settled || settled[fwds[f].opener.value].life.ended
               || fwds[f].news.notified || !fwds[f].dests.finalized || !fwds[f].stage.waiting
    ensures NoneSettled(settled, f)
  {
    hide LimitReached, Kept;
    forall j | j in settled && !settled[j].life.ended
      ensures settled[j].setup.fwd != f
    {
      assert LinkOK(j, jobs[j], fwds);
    }
  }

  /** While allowances can be given, no settled job waits for one. */
  lemma SettledDoNotWait(settled: map<nat, Job>, jobs: map<nat, Job>, fwds: map<nat, Fwd>, cfg: Config, waitEnd: real,
                         level: int)
    requires SettledOK(settled, jobs, fwds, cfg, waitEnd) && |Holders(jobs)| <= level && !LimitReached(cfg, level)
    ensures forall j :: j in settled && !settled[j].life.ended ==> !settled[j].wait.forSpareAllowance
  {
    hide LimitReached;
    assert Kept(jobs) <= Holders(jobs);
    SubsetSize(Kept(jobs), Holders(jobs));
    if LimitReached(cfg, |Kept(jobs)|) { LimitGrows(cfg, |Kept(jobs)|, level); }
  }

  lemma SettledAwake(settled: map<nat, Job>, jobs: map<nat, Job>, fwds: map<nat, Fwd>, cfg: Config, waitEnd: real,
                     waitEnd': real, level: int)
    requires SettledOK(settled, jobs, fwds, cfg, waitEnd) && |Holders(jobs)| <= level
    requires waitEnd' <= waitEnd || waitEnd' <= 0.0 || !LimitReached(cfg, level)
    ensures SettledOK(settled, jobs, fwds, cfg, waitEnd')
  {
    hide LimitReached, Kept, Holders;
    if !LimitReached(cfg, level) { SettledDoNotWait(settled, jobs, fwds, cfg, waitEnd, level); }
  }

  /** The job at the front of a list that moves on is not settled. */
  lemma FrontNotSettled(settled: map<nat, Job>, jobs: map<nat, Job>, fwds: map<nat, Fwd>, cfg: Config, waitEnd: real,
                        level: int, kind: Kind, x: nat)
    requires SettledOK(settled, jobs, fwds, cfg, waitEnd) && |Holders(jobs)| <= level
    requires kind.SpareAllowance? ==> !LimitReached(cfg, level)
    requires x in jobs && !jobs[x].life.ended && WaitsFor(jobs[x].wait, kind)
    ensures x !in settled
  {
    hide LimitReached, Kept, Holders;
    if kind.SpareAllowance? { SettledDoNotWait(settled, jobs, fwds, cfg, waitEnd, level); }
  }

  // --- Time and attempts left ---

  function DiffOrZero(larger: int, smaller: int): int { if larger > smaller then larger - smaller else 0 }

  function ForwardTimeout(cfg: Config, curtime: int, fwdStart: int): int {
    DiffOrZero(cfg.forwardTimeout, DiffOrZero(curtime, fwdStart))
  }

  predicate RanOut(job: Job, cfg: Config, curtime: int) {
    job.ranOut || job.nTries >= cfg.forwardMaxTries || ForwardTimeout(cfg, curtime, job.setup.fwdStart) <= 0
  }

  lemma AttemptsLeft(job: Job, cfg: Config, curtime: int)
    ensures !RanOut(job, cfg, curtime) ==> job.nTries < cfg.forwardMaxTries
    ensures job.ranOut ==> RanOut(job, cfg, curtime)
  {
  }

  predicate DoneAll(job: Job, d: Dests, cfg: Config, curtime: int) {
    || job.life.stopped || !job.client.hasCallback || job.client.canceled
    || (InFlight(job) == 0 && (RanOut(job, cfg, curtime) || (Empty(d) && d.finalized)))
  }

  /** After a prime attempt began or a connection was reused, there is no doubt whether the job is done. */
  lemma BusyOrDone(job: Job, d: Dests, cfg: Config, curtime: int)
    requires !job.life.stopped && !job.client.canceled && (job.client.hasCallback ==> InFlight(job) > 0)
    ensures DoneAll(job, d, cfg, curtime) <==> !job.client.hasCallback
  {
  }

  /** A job that is not done owes an answer, and its verdict about time and attempts is up to date or irrelevant. */
  lemma GoingOn(job: Job, d: Dests, cfg: Config, curtime: int)
    ensures !DoneAll(job, d, cfg, curtime) ==> job.client.hasCallback && !job.life.stopped
    ensures job.life.stopped ==> DoneAll(job, d, cfg, curtime)
  {
  }

  lemma WorksOn(job: Job, d: Dests, cfg: Config, curtime: int)
    ensures !DoneAll(job, d, cfg, curtime) ==> !job.client.canceled
  {
  }

  lemma Unchanged(jobs: map<nat, Job>, j: nat)
    requires j in jobs
    ensures jobs[j := jobs[j]] == jobs
  {
  }

  // --- Answers ---

  /** Gives up the callback, answering the initiator if it still wants an answer. */
  function SendAnswer(job: Job, a: Answer): Job {
    job.(client := job.client.(hasCallback := false), answers := if job.client.hasCallback && !job.client.canceled then job.answers + [a] else job.answers)
  }

  function SendSuccess(job: Job, pos: nat, reused: bool): Job {
    SendAnswer(job, Answer(Some(pos), true, false, job.nTries, reused))
  }

  function SendFailure(job: Job): Job {
    SendAnswer(job, Answer(job.lastFailed, false, true, job.nTries, false))
  }

  /** What the initiator has been sent by the end of the job. */
  function FinalAnswers(job: Job): seq<Answer> {
    if job.client.hasCallback && !job.client.canceled then SendFailure(job).answers else job.answers
  }

  lemma FinalAnswersSame(job: Job, out: bool)
    ensures FinalAnswers(job.(ranOut := out)) == FinalAnswers(job)
    ensures FinalAnswers(Halted(job)) == FinalAnswers(job)
  {
  }

  /** The one check in checkForNewConnection() that can fail: a job that does
    * not wait for a new peer runs out of paths to its peer while it waits. */
  predicate ChecksFail(job: Job, d: Dests, cfg: Config, curtime: int) {
    && !DoneAll(job, d, cfg, curtime) && !RanOut(job, cfg, curtime)
    && InFlight(job) == 0 && job.currentPeer.Some? && DoneWithPeer(d, job.currentPeer.value)
    && Waiting(job.wait) && !job.wait.forNewPeer
  }

  /** All primes have failed, a spare is known, and yet the job waits for its primes to fail. */
  predicate Stalled(job: Job, d: Dests, cfg: Config, curtime: int) {
    && job.life.started && job.client.hasCallback && !job.life.stopped && !job.client.canceled
    && !RanOut(job, cfg, curtime)
    && InFlight(job) == 0 && job.currentPeer.Some? && job.wait == NoWait.(forPrimesToFail := true)
    && OnlySpares(d, job.currentPeer.value)
  }

  /** A stalled job is neither done nor finished with its peer or its spares. */
  lemma StalledStays(job: Job, d: Dests, cfg: Config, curtime: int)
    requires Stalled(job, d, cfg, curtime)
    ensures !DoneAll(job, d, cfg, curtime)
    ensures !DoneWithPeer(d, job.currentPeer.value) && !DoneWithSpares(d, job.currentPeer.value)
  {
    SpareKeepsPeer(d, job.currentPeer.value);
  }

  // --- Paths changing hands ---

  lemma PathsConnect(prime: Attempt, spare: Attempt, slots: seq<Slot>, handled: set<nat>, pos: nat)
    requires PathsOK(prime, spare, slots, handled) && pos < |slots| && slots[pos].available
    ensures var slots' := slots[pos := slots[pos].(available := false)];
            && (prime.Idle? ==> PathsOK(Connecting(pos), spare, slots', handled))
            && (spare.Idle? ==> PathsOK(prime, Connecting(pos), slots', handled))
            && PathsOK(prime, spare, slots', handled + {pos})
  {
    assert PathPlaced(prime, spare, slots[pos], pos, handled);
  }

  lemma PathsFinish(prime: Attempt, spare: Attempt, slots: seq<Slot>, handled: set<nat>)
    requires PathsOK(prime, spare, slots, handled)
    ensures prime.Connecting? ==>
              && PathsOK(Idle, spare, slots, handled + {prime.pos})
              && PathsOK(Idle, spare, slots[prime.pos := slots[prime.pos].(available := true)], handled)
              && !slots[prime.pos].available
    ensures spare.Connecting? ==>
              && PathsOK(prime, Idle, slots, handled + {spare.pos})
              && PathsOK(prime, Idle, slots[spare.pos := slots[spare.pos].(available := true)], handled)
              && !slots[spare.pos].available
  {
    if prime.Connecting? { assert PathPlaced(prime, spare, slots[prime.pos], prime.pos, handled); }
    if spare.Connecting? { assert PathPlaced(prime, spare, slots[spare.pos], spare.pos, handled); }
  }

  lemma PathsAdd(prime: Attempt, spare: Attempt, slots: seq<Slot>, handled: set<nat>, p: Path)
    requires PathsOK(prime, spare, slots, handled)
    ensures PathsOK(prime, spare, slots + [Slot(p, true)], handled)
  {
    assert |slots| !in handled;
  }

  lemma PathsReinstate(slots: seq<Slot>, handled: set<nat>, pos: nat)
    requires PathsOK(Idle, Idle, slots, handled) && pos in handled
    ensures !slots[pos].available
    ensures PathsOK(Idle, Idle, slots[pos := slots[pos].(available := true)], handled - {pos})
  {
    assert PathPlaced(Idle, Idle, slots[pos], pos, handled);
  }

  // --- Starting an attempt ---

  predicate CanReuse(job: Job, path: Path) {
    job.setup.allowPconn && !(job.setup.sslBumped && path.peer != 0)
  }

  /** Extracting a path takes it from the list; reusing an idle connection also settles it. */
  function ConnectFwd(f: Fwd, pos: nat, reuse: bool): Fwd
    requires pos < |f.dests.slots|
  {
    f.(dests := Extract(f.dests, pos), handled := if reuse then f.handled + {pos} else f.handled)
  }

  function Reused(job: Job, pos: nat): Job {
    SendSuccess(job.(nTries := job.nTries + 1), pos, true)
  }

  function ConnectPrime(job: Job, pos: nat, reuse: bool): Job {
    if reuse then Reused(job, pos) else job.(prime := Connecting(pos))
  }

  function ConnectSpare(job: Job, pos: nat, reuse: bool): Job {
    if reuse then WithKept(Reused(job, pos), job.permit.gotSpareAllowance) else job.(spare := Connecting(pos))
  }

  /** The conditions under which an attempt may start. */
  predicate MayConnect(job: Job, f: Fwd, calls: map<nat, Call>, cfg: Config, pos: nat) {
    && BaseOK(job, f, calls, cfg) && job.client.hasCallback && job.life.started && job.currentPeer.Some?
    && job.nTries < cfg.forwardMaxTries && pos < |f.dests.slots| && f.dests.slots[pos].available
  }

  lemma PrimeConnected(job: Job, f: Fwd, calls: map<nat, Call>, cfg: Config, pos: nat)
    requires MayConnect(job, f, calls, cfg, pos) && job.prime.Idle?
    requires Waiting(job.wait) ==> f.dests.slots[pos].path == job.currentPeer.value
    ensures BaseOK(ConnectPrime(job, pos, false), ConnectFwd(f, pos, false), calls, cfg)
  {
    hide PathsOK, HaveSpare, DoneWithSpares, AnswersOK, WaitsFor;
    PathsConnect(job.prime, job.spare, f.dests.slots, f.handled, pos);
    if Waiting(job.wait) { SparesAfterPrime(f.dests, job.currentPeer.value, pos); }
  }

  lemma SpareConnected(job: Job, f: Fwd, calls: map<nat, Call>, cfg: Config, pos: nat, got: bool)
    requires MayConnect(job, f, calls, cfg, pos) && job.spare.Idle? && !Waiting(job.wait)
    ensures BaseOK(ConnectSpare(WithGot(job, got), pos, false), ConnectFwd(f, pos, false), calls, cfg)
  {
    hide PathsOK, HaveSpare, DoneWithSpares, AnswersOK, WaitsFor;
    PathsConnect(job.prime, job.spare, f.dests.slots, f.handled, pos);
  }

  lemma SpareReused(job: Job, f: Fwd, calls: map<nat, Call>, cfg: Config, pos: nat, got: bool)
    requires MayConnect(job, f, calls, cfg, pos) && job.spare.Idle? && !Waiting(job.wait)
    ensures BaseOK(ConnectSpare(WithGot(job, got), pos, true), ConnectFwd(f, pos, true), calls, cfg)
  {
    hide PathsOK, HaveSpare, DoneWithSpares, WaitsFor;
    PathsConnect(job.prime, job.spare, f.dests.slots, f.handled, pos);
  }

  lemma PrimeReused(job: Job, f: Fwd, calls: map<nat, Call>, cfg: Config, pos: nat)
    requires MayConnect(job, f, calls, cfg, pos) && InFlight(job) <= 1
    requires Waiting(job.wait) ==> f.dests.slots[pos].path == job.currentPeer.value
    ensures BaseOK(Reused(job, pos), ConnectFwd(f, pos, true), calls, cfg)
  {
    hide PathsOK, HaveSpare, DoneWithSpares, WaitsFor;
    PathsConnect(job.prime, job.spare, f.dests.slots, f.handled, pos);
    if Waiting(job.wait) { SparesAfterPrime(f.dests, job.currentPeer.value, pos); }
  }

  lemma SpareStarted(job: Job, f: Fwd, calls: map<nat, Call>, cfg: Config, pos: nat, reuse: bool)
    requires MayConnect(WithGot(job, false), f, calls, cfg, pos) && job.spare.Idle? && !Waiting(job.wait)
    ensures BaseOK(ConnectSpare(job, pos, reuse), ConnectFwd(f, pos, reuse), calls, cfg)
  {
    hide BaseOK;
    var job0 := WithGot(job, false);
    assert WithGot(job0, job.permit.gotSpareAllowance) == job;
    if reuse {
      SpareReused(job0, f, calls, cfg, pos, job.permit.gotSpareAllowance);
    } else {
      SpareConnected(job0, f, calls, cfg, pos, job.permit.gotSpareAllowance);
    }
  }

  lemma PrimeStarted(job: Job, f: Fwd, calls: map<nat, Call>, cfg: Config, pos: nat, reuse: bool)
    requires MayConnect(job, f, calls, cfg, pos) && job.prime.Idle?
    requires Waiting(job.wait) ==> f.dests.slots[pos].path == job.currentPeer.value
    ensures BaseOK(ConnectPrime(job, pos, reuse), ConnectFwd(f, pos, reuse), calls, cfg)
  {
    hide BaseOK;
    if reuse {
      PrimeReused(job, f, calls, cfg, pos);
    } else {
      PrimeConnected(job, f, calls, cfg, pos);
    }
  }

  // --- Starting a wait ---

  function Managed(kind: Kind): SpareWait {
    if kind.PrimeChance? then NoWait.(toGivePrimeItsChance := true) else NoWait.(forSpareAllowance := true)
  }

  /** A job that does not wait may start to, for one reason. */
  lemma WaitStarted(job: Job, f: Fwd, calls: map<nat, Call>, cfg: Config, wait: SpareWait)
    requires BaseOK(job, f, calls, cfg) && job.spare.Idle? && !job.permit.gotSpareAllowance
    requires job.currentPeer.Some? && job.life.started
    requires ReasonCount(wait) <= 1 && wait.callback.None?
    requires wait.forPrimesToFail ==> cfg.connectLimit == 0
    requires wait.forSpareAllowance ==> HaveSpare(f.dests, job.currentPeer.value)
    requires wait.forNewPeer ==> DoneWithSpares(f.dests, job.currentPeer.value)
    ensures BaseOK(job.(wait := wait), f, calls, cfg)
  {
    hide PathsOK, AnswersOK, HaveSpare, DoneWithSpares;
  }

  lemma PeerKnown(job: Job, f: Fwd, calls: map<nat, Call>, cfg: Config)
    requires BaseOK(job, f, calls, cfg)
    ensures Waiting(job.wait) || InFlight(job) > 0 ==> job.currentPeer.Some? && job.life.started
  {
  }

  lemma NotWaiting(job: Job, f: Fwd, calls: map<nat, Call>, cfg: Config)
    requires BaseOK(job, f, calls, cfg) && !Waiting(job.wait)
    ensures job.wait == NoWait
  {
  }

  function WithPeer(job: Job, peer: Option<Path>, start: real, ignore: bool): Job {
    job.(currentPeer := peer, primeStart := start, permit := job.permit.(ignoreSpareRestrictions := ignore))
  }

  /** The peer of an idle job that does not wait may change. */
  lemma PeerChanged(job: Job, f: Fwd, calls: map<nat, Call>, cfg: Config, peer: Option<Path>, start: real, ignore: bool)
    requires BaseOK(job, f, calls, cfg) && !Waiting(job.wait) && InFlight(job) == 0
    ensures BaseOK(WithPeer(job, peer, start, ignore), f, calls, cfg)
  {
    hide PathsOK, AnswersOK;
  }

  lemma CacheIrrelevant(job: Job, f: Fwd, calls: map<nat, Call>, cfg: Config, out: bool)
    requires BaseOK(job, f, calls, cfg)
    ensures BaseOK(job.(ranOut := out), f, calls, cfg)
  {
    hide PathsOK, AnswersOK, HaveSpare, DoneWithSpares;
  }

  lemma NoAllowance(job: Job, f: Fwd, calls: map<nat, Call>, cfg: Config)
    requires BaseOK(job, f, calls, cfg) && job.client.hasCallback && job.spare.Idle?
    ensures !job.permit.gotSpareAllowance
  {
  }

  /** Which wait can outlive its peer: a job that waits for its primes to fail,
    * and no other, may have nothing left to do with the peer it waits on. */
  lemma StaleWait(job: Job, f: Fwd, calls: map<nat, Call>, cfg: Config)
    requires BaseOK(job, f, calls, cfg) && InFlight(job) == 0 && !job.wait.toGivePrimeItsChance
    requires job.currentPeer.Some? && DoneWithPeer(f.dests, job.currentPeer.value)
    requires Waiting(job.wait) && !job.wait.forNewPeer
    ensures job.wait.forPrimesToFail && cfg.connectLimit == 0
  {
    hide PathsOK, AnswersOK, DoneWithPeer, HaveSpare, DoneWithSpares;
    if job.wait.forSpareAllowance { SpareKeepsPeer(f.dests, job.currentPeer.value); }
  }

  /** A job that is not done but finished with its peer has paths to another peer. */
  lemma NextPeerThere(job: Job, d: Dests, cfg: Config, curtime: int, cur: Path)
    requires !DoneAll(job, d, cfg, curtime) && InFlight(job) == 0 && DoneWithPeer(d, cur)
    ensures !Empty(d)
  {
  }

  lemma CachedRanOut(job: Job, cfg: Config, curtime: int)
    ensures RanOut(job.(ranOut := RanOut(job, cfg, curtime)), cfg, curtime) == RanOut(job, cfg, curtime)
  {
  }

  lemma CacheUnused(job: Job, cfg: Config, curtime: int)
    requires !RanOut(job, cfg, curtime)
    ensures job.(ranOut := RanOut(job, cfg, curtime)) == job
  {
  }

  lemma WaitCleared(job: Job, f: Fwd, calls: map<nat, Call>, cfg: Config)
    requires BaseOK(job, f, calls, cfg)
    ensures BaseOK(ClearWait(job), f, calls, cfg)
  {
    hide PathsOK, AnswersOK, HaveSpare, DoneWithSpares;
  }

  /** Nobody waits for an allowance to use on spares that are not coming. */
  lemma NoVainWait(job: Job, f: Fwd, calls: map<nat, Call>, cfg: Config)
    requires BaseOK(job, f, calls, cfg) && job.currentPeer.Some? && DoneWithSpares(f.dests, job.currentPeer.value)
    ensures !job.wait.forSpareAllowance
  {
    hide PathsOK, AnswersOK, HaveSpare, DoneWithSpares;
    if job.wait.forSpareAllowance { SpareKeepsPeer(f.dests, job.currentPeer.value); }
  }

  /** A job without a pending call does not care which calls are scheduled. */
  lemma NoCallNeeded(job: Job, f: Fwd, calls: map<nat, Call>, calls': map<nat, Call>, cfg: Config)
    requires BaseOK(job, f, calls, cfg) && job.wait.callback.None?
    ensures BaseOK(job, f, calls', cfg)
  {
    hide PathsOK, AnswersOK, HaveSpare, DoneWithSpares;
  }

  lemma SpareIdleHere(job: Job, f: Fwd, calls: map<nat, Call>, cfg: Config)
    requires BaseOK(job, f, calls, cfg) && Waiting(job.wait)
    ensures job.spare.Idle? && !job.permit.gotSpareAllowance
  {
  }

  // --- Ending attempts and jobs ---

  lemma AnswerSent(job: Job, f: Fwd, calls: map<nat, Call>, cfg: Config, a: Answer)
    requires BaseOK(job, f, calls, cfg) && a.nTries == job.nTries
    requires a.error <==> !a.open
    requires a.open ==> a.conn.Some? && a.conn.value in f.handled
    requires job.client.hasCallback
    ensures BaseOK(SendAnswer(job, a), f, calls, cfg)
  {
    hide PathsOK, HaveSpare, DoneWithSpares;
  }

  function FinishPrime(job: Job): Job { job.(prime := Idle, nTries := job.nTries + 1) }
  function FinishSpare(job: Job): Job { job.(spare := Idle, nTries := job.nTries + 1) }

  lemma PrimeFinished(job: Job, f: Fwd, calls: map<nat, Call>, cfg: Config)
    requires BaseOK(job, f, calls, cfg) && job.prime.Connecting?
    ensures BaseOK(FinishPrime(job), f.(handled := f.handled + {job.prime.pos}), calls, cfg)
  {
    hide PathsOK, AnswersOK, HaveSpare, DoneWithSpares;
    PathsFinish(job.prime, job.spare, f.dests.slots, f.handled);
  }

  lemma SpareFinished(job: Job, f: Fwd, calls: map<nat, Call>, cfg: Config)
    requires BaseOK(job, f, calls, cfg) && job.spare.Connecting? && !job.permit.gotSpareAllowance
    ensures BaseOK(FinishSpare(job), f.(handled := f.handled + {job.spare.pos}), calls, cfg)
  {
    hide PathsOK, AnswersOK, HaveSpare, DoneWithSpares;
    PathsFinish(job.prime, job.spare, f.dests.slots, f.handled);
  }

  lemma PrimeCanceled(job: Job, f: Fwd, calls: map<nat, Call>, cfg: Config)
    requires BaseOK(job, f, calls, cfg) && job.prime.Connecting? && !Waiting(job.wait)
    ensures job.prime.pos < |f.dests.slots| && !f.dests.slots[job.prime.pos].available
    ensures BaseOK(job.(prime := Idle), f.(dests := Reinstate(f.dests, job.prime.pos)), calls, cfg)
  {
    PathsFinish(job.prime, job.spare, f.dests.slots, f.handled);
    hide PathsOK, AnswersOK, HaveSpare, DoneWithSpares;
  }

  lemma SpareCanceled(job: Job, f: Fwd, calls: map<nat, Call>, cfg: Config)
    requires BaseOK(job, f, calls, cfg) && job.spare.Connecting? && !job.permit.gotSpareAllowance
    ensures job.spare.pos < |f.dests.slots| && !f.dests.slots[job.spare.pos].available
    ensures BaseOK(job.(spare := Idle), f.(dests := Reinstate(f.dests, job.spare.pos)), calls, cfg)
  {
    PathsFinish(job.prime, job.spare, f.dests.slots, f.handled);
    hide PathsOK, AnswersOK, HaveSpare, DoneWithSpares;
  }

  /** Returning an allowance while the spare attempt is still recorded. */
  lemma AllowanceReturned(job: Job, f: Fwd, calls: map<nat, Call>, cfg: Config)
    requires BaseOK(job, f, calls, cfg) && job.spare.Connecting?
    ensures BaseOK(WithGot(job, false), f, calls, cfg)
  {
    hide PathsOK, AnswersOK, HaveSpare, DoneWithSpares;
  }

  lemma JobEnded(jobs: map<nat, Job>, fwds: map<nat, Fwd>, calls: map<nat, Call>, cfg: Config, j: nat)
    requires LinksOK(jobs, fwds, cfg) && OthersOK(jobs, fwds, calls, cfg, j)
    requires j in jobs && !jobs[j].life.ended && jobs[j].setup.fwd in fwds
    requires BaseOK(jobs[j], fwds[jobs[j].setup.fwd], calls, cfg)
    requires !Waiting(jobs[j].wait) && InFlight(jobs[j]) == 0
    requires (jobs[j].client.hasCallback ==> jobs[j].client.canceled)
    ensures var jobs' := jobs[j := Over(jobs[j])];
            && LinksOK(jobs', fwds, cfg)
            && forall k :: k in jobs' ==> JobOK(jobs'[k], fwds, calls, cfg)
  {
    var jobs' := jobs[j := Over(jobs[j])];
    forall k | k in jobs'
      ensures LinkOK(k, jobs'[k], fwds) && JobOK(jobs'[k], fwds, calls, cfg)
    {
      assert LinkOK(k, jobs[k], fwds);
    }
    forall f | f in fwds
      ensures FwdOK(f, fwds[f], jobs', cfg)
    {
      assert FwdOK(f, fwds[f], jobs, cfg);
    }
  }

  lemma BusyDoesNotWait(job: Job, f: Fwd, calls: map<nat, Call>, cfg: Config)
    requires BaseOK(job, f, calls, cfg) && job.spare.Connecting?
    ensures job.wait == NoWait
  {
    hide PathsOK, AnswersOK, HaveSpare, DoneWithSpares;
  }

  lemma StopIrrelevant(job: Job, f: Fwd, calls: map<nat, Call>, cfg: Config)
    requires BaseOK(job, f, calls, cfg)
    ensures BaseOK(Halted(job), f, calls, cfg)
  {
    hide PathsOK, AnswersOK, HaveSpare, DoneWithSpares;
  }

  lemma StartIrrelevant(job: Job, f: Fwd, calls: map<nat, Call>, cfg: Config)
    requires BaseOK(job, f, calls, cfg)
    ensures BaseOK(Begun(job), f, calls, cfg)
  {
    hide PathsOK, AnswersOK, HaveSpare, DoneWithSpares;
  }

  lemma FailureIrrelevant(job: Job, f: Fwd, calls: map<nat, Call>, cfg: Config, pos: nat)
    requires BaseOK(job, f, calls, cfg)
    ensures BaseOK(job.(lastFailed := Some(pos)), f, calls, cfg)
  {
    hide PathsOK, AnswersOK, HaveSpare, DoneWithSpares;
  }

  lemma IgnoreRestrictions(job: Job, f: Fwd, calls: map<nat, Call>, cfg: Config)
    requires BaseOK(job, f, calls, cfg)
    ensures BaseOK(Lifted(job), f, calls, cfg)
  {
    hide PathsOK, AnswersOK, HaveSpare, DoneWithSpares;
  }

  /** The call that fires is the one the job waits for; an expected spare is still there. */
  lemma CallExpected(job: Job, f: Fwd, calls: map<nat, Call>, cfg: Config)
    requires BaseOK(job, f, calls, cfg) && job.wait.callback.Some?
    ensures job.wait.callback.value in calls && WaitsFor(job.wait, calls[job.wait.callback.value].kind)
    ensures ReasonCount(job.wait) == 1 && job.spare.Idle? && !job.permit.gotSpareAllowance
    ensures job.wait.forSpareAllowance ==> job.currentPeer.Some? && HaveSpare(f.dests, job.currentPeer.value)
  {
    hide PathsOK, AnswersOK, HaveSpare, DoneWithSpares;
  }

  lemma OneReason(job: Job, f: Fwd, calls: map<nat, Call>, cfg: Config)
    requires BaseOK(job, f, calls, cfg) && job.wait.forNewPeer
    ensures !job.wait.forSpareAllowance
  {
    hide PathsOK, AnswersOK, HaveSpare, DoneWithSpares;
  }

  lemma LiveAllowance(job: Job, f: Fwd, calls: map<nat, Call>, cfg: Config)
    requires BaseOK(job, f, calls, cfg) && job.wait.callback.Some? && job.client.hasCallback
    ensures !job.permit.gotSpareAllowance && !job.permit.keptAllowance && job.spare.Idle?
  {
    hide PathsOK, AnswersOK, HaveSpare, DoneWithSpares;
  }

  lemma OnlyReason(job: Job, f: Fwd, calls: map<nat, Call>, cfg: Config)
    requires BaseOK(job, f, calls, cfg) && job.wait.toGivePrimeItsChance
    ensures WithoutFlag(job, PrimeChance) == ClearWait(job)
    ensures !job.wait.forSpareAllowance
  {
    hide PathsOK, AnswersOK, HaveSpare, DoneWithSpares;
  }

  lemma QueueInJobs(jobs: map<nat, Job>, q: seq<nat>, kind: Kind, j: nat)
    requires QueueOK(jobs, q, kind) && j !in jobs
    ensures j !in q
  {
  }

  // --- Forwarding requests ---

  ghost predicate JobsOK(jobs: map<nat, Job>, fwds: map<nat, Fwd>, calls: map<nat, Call>, cfg: Config) {
    forall k :: k in jobs ==> JobOK(jobs[k], fwds, calls, cfg)
  }

  lemma JobsAreOthers(jobs: map<nat, Job>, fwds: map<nat, Fwd>, calls: map<nat, Call>, cfg: Config, j: nat)
    requires j !in jobs
    ensures JobsOK(jobs, fwds, calls, cfg) <==> OthersOK(jobs, fwds, calls, cfg, j)
  {
  }

  /** No live job works for the request. */
  predicate Quiet(fwd: Fwd, jobs: map<nat, Job>) {
    fwd.opener.None? || (fwd.opener.value in jobs && jobs[fwd.opener.value].life.ended)
  }

  /** A request without a live job may change in any way that is fine for itself. */
  lemma QuietAfter(jobs: map<nat, Job>, fwds: map<nat, Fwd>, calls: map<nat, Call>, cfg: Config, f: nat, fwd: Fwd)
    requires LinksOK(jobs, fwds, cfg) && JobsOK(jobs, fwds, calls, cfg)
    requires f in fwds ==> Quiet(fwds[f], jobs)
    requires FwdOK(f, fwd, jobs, cfg)
    ensures LinksOK(jobs, fwds[f := fwd], cfg) && JobsOK(jobs, fwds[f := fwd], calls, cfg)
  {
    var fwds' := fwds[f := fwd];
    forall k | k in jobs
      ensures LinkOK(k, jobs[k], fwds') && JobOK(jobs[k], fwds', calls, cfg)
    {
      assert LinkOK(k, jobs[k], fwds) && JobOK(jobs[k], fwds, calls, cfg);
    }
    forall g | g in fwds'
      ensures FwdOK(g, fwds'[g], jobs, cfg)
    {
      if g != f { assert FwdOK(g, fwds[g], jobs, cfg); }
    }
  }

  function NewFwd(sslBumped: bool, curtime: int): Fwd {
    Fwd(0, [0], Stage(false, false, false), None, Dests([], false), News(false, false), false, RaceImpossible, None,
        sslBumped, curtime, {})
  }

  function NewJob(f: nat, fwd: Fwd): Job {
    Job(Setup(f, fwd.nTries, fwd.startT, fwd.race != RaceHappened, fwd.sslBumped), Life(false, false, false),
        Client(true, false), [], Idle, Idle, None, NoWait, None, Permit(false, false, false), fwd.nTries, false, 0.0)
  }

  /** The request waits for the answer of its new opener, whose start is pending. */
  function Engage(fwd: Fwd, j: nat): Fwd {
    fwd.(stage := fwd.stage.(waiting := true), opener := Some(j), news := fwd.news.(notified := true))
  }

  /** Starting an opener job for a request that has paths to try. */
  lemma OpenerStarted(jobs: map<nat, Job>, fwds: map<nat, Fwd>, calls: map<nat, Call>, cfg: Config, f: nat, j: nat)
    requires LinksOK(jobs, fwds, cfg) && JobsOK(jobs, fwds, calls, cfg)
    requires f in fwds && Quiet(fwds[f], jobs) && j !in jobs && !Empty(fwds[f].dests)
    requires !fwds[f].stage.dead && !fwds[f].stage.transporting && fwds[f].news.destinationsFound
    ensures var jobs', fwds' := jobs[j := NewJob(f, fwds[f])], fwds[f := Engage(fwds[f], j)];
            LinksOK(jobs', fwds', cfg) && JobsOK(jobs', fwds', calls, cfg)
  {
    hide BaseOK, StableOK, EndedOK, PathsOK, TriesLogged, HandedOver;
    var job, fwd := NewJob(f, fwds[f]), Engage(fwds[f], j);
    var jobs', fwds' := jobs[j := job], fwds[f := fwd];
    assert FwdOK(f, fwds[f], jobs, cfg);
    NewJobOK(f, fwds[f], fwd, calls, cfg);
    forall k | k in jobs'
      ensures LinkOK(k, jobs'[k], fwds') && JobOK(jobs'[k], fwds', calls, cfg)
    {
      if k != j { assert LinkOK(k, jobs[k], fwds) && JobOK(jobs[k], fwds, calls, cfg); }
    }
    forall g | g in fwds'
      ensures FwdOK(g, fwds'[g], jobs', cfg)
    {
      assert FwdOK(g, fwds[g], jobs, cfg);
    }
  }

  lemma NewJobOK(f: nat, fwd: Fwd, fwd': Fwd, calls: map<nat, Call>, cfg: Config)
    requires PathsOK(Idle, Idle, fwd.dests.slots, fwd.handled) && !Empty(fwd.dests)
    requires fwd'.dests == fwd.dests && fwd'.handled == fwd.handled
    ensures BaseOK(NewJob(f, fwd), fwd', calls, cfg) && StableOK(NewJob(f, fwd), fwd')
  {
    hide PathsOK, HaveSpare, DoneWithSpares, Empty;
  }

  lemma QueueNewJob(jobs: map<nat, Job>, q: seq<nat>, kind: Kind, j: nat, job: Job)
    requires QueueOK(jobs, q, kind) && j !in jobs && job.wait == NoWait
    ensures QueueOK(jobs[j := job], q, kind)
  {
  }

  lemma CallsNewJob(jobs: map<nat, Job>, calls: map<nat, Call>, j: nat, job: Job)
    requires CallsOK(jobs, calls) && j !in jobs && job.wait == NoWait
    ensures CallsOK(jobs[j := job], calls)
  {
  }

  lemma HoldersNewJob(jobs: map<nat, Job>, j: nat, job: Job)
    requires j !in jobs && !Holds(job)
    ensures Holders(jobs[j := job]) == Holders(jobs)
  {
  }

  function Abandon(fwd: Fwd): Fwd {
    fwd.(stage := Stage(false, false, true), receipt := None)
  }

  /** Abandoning a request cancels the callback of its opener. */
  lemma Abandoned(jobs: map<nat, Job>, fwds: map<nat, Fwd>, calls: map<nat, Call>, cfg: Config, f: nat)
    requires LinksOK(jobs, fwds, cfg) && JobsOK(jobs, fwds, calls, cfg)
    requires f in fwds && fwds[f].stage.waiting && fwds[f].opener.Some? && fwds[f].opener.value in jobs
    ensures var j := fwds[f].opener.value;
            var jobs', fwds' := jobs[j := Disowned(jobs[j])], fwds[f := Abandon(fwds[f])];
            LinksOK(jobs', fwds', cfg) && JobsOK(jobs', fwds', calls, cfg)
  {
    hide JobOK, PathsOK, TriesLogged, HandedOver;
    var j := fwds[f].opener.value;
    var jobs', fwds' := jobs[j := Disowned(jobs[j])], fwds[f := Abandon(fwds[f])];
    assert FwdOK(f, fwds[f], jobs, cfg);
    CanceledOK(jobs[j], fwds, calls, cfg);
    forall k | k in jobs'
      ensures JobOK(jobs'[k], fwds', calls, cfg)
    {
      AbandonIrrelevant(jobs'[k], fwds, calls, cfg, f);
    }
    AbandonedLinks(jobs, fwds, cfg, f);
  }

  lemma AbandonedLinks(jobs: map<nat, Job>, fwds: map<nat, Fwd>, cfg: Config, f: nat)
    requires LinksOK(jobs, fwds, cfg)
    requires f in fwds && fwds[f].stage.waiting && fwds[f].opener.Some? && fwds[f].opener.value in jobs
    ensures var j := fwds[f].opener.value;
            LinksOK(jobs[j := Disowned(jobs[j])], fwds[f := Abandon(fwds[f])], cfg)
  {
    hide PathsOK, TriesLogged, HandedOver;
    var j := fwds[f].opener.value;
    var jobs', fwds' := jobs[j := Disowned(jobs[j])], fwds[f := Abandon(fwds[f])];
    assert FwdOK(f, fwds[f], jobs, cfg);
    forall k | k in jobs'
      ensures LinkOK(k, jobs'[k], fwds')
    {
      assert LinkOK(k, jobs[k], fwds);
    }
    forall g | g in fwds'
      ensures FwdOK(g, fwds'[g], jobs', cfg)
    {
      assert FwdOK(g, fwds[g], jobs, cfg);
    }
  }

  lemma CanceledOK(job: Job, fwds: map<nat, Fwd>, calls: map<nat, Call>, cfg: Config)
    requires JobOK(job, fwds, calls, cfg)
    ensures JobOK(Disowned(job), fwds, calls, cfg)
  {
    hide PathsOK, HaveSpare, DoneWithSpares, Empty;
  }

  lemma AbandonIrrelevant(job: Job, fwds: map<nat, Fwd>, calls: map<nat, Call>, cfg: Config, f: nat)
    requires JobOK(job, fwds, calls, cfg) && f in fwds
    ensures JobOK(job, fwds[f := Abandon(fwds[f])], calls, cfg)
  {
    hide PathsOK, HaveSpare, DoneWithSpares, Empty, AnswersOK;
  }

  /** The opener, if any, will be told about the change. */
  function Told(fwd: Fwd, d: Dests): Fwd {
    fwd.(dests := d, news := News(fwd.news.notified || fwd.stage.waiting, true))
  }

  /** More paths, or the news that there will be none, while a job is at work. */
  lemma PathsGrow(jobs: map<nat, Job>, fwds: map<nat, Fwd>, calls: map<nat, Call>, cfg: Config, f: nat, fwd: Fwd)
    requires LinksOK(jobs, fwds, cfg) && JobsOK(jobs, fwds, calls, cfg)
    requires f in fwds && fwd == Told(fwds[f], fwd.dests)
    requires !fwds[f].dests.finalized
    requires fwd.dests == Finalize(fwds[f].dests) || exists p :: fwd.dests == AddPath(fwds[f].dests, p)
    ensures LinksOK(jobs, fwds[f := fwd], cfg) && JobsOK(jobs, fwds[f := fwd], calls, cfg)
  {
    hide BaseOK, StableOK, EndedOK, PathsOK, TriesLogged, HandedOver;
    var fwds' := fwds[f := fwd];
    assert FwdOK(f, fwds[f], jobs, cfg);
    if fwds[f].opener.None? || jobs[fwds[f].opener.value].life.ended {
      PathsStayPlaced(Idle, Idle, fwds[f].dests, fwd.dests, fwd.handled);
    }
    forall k | k in jobs
      ensures LinkOK(k, jobs[k], fwds') && JobOK(jobs[k], fwds', calls, cfg)
    {
      assert LinkOK(k, jobs[k], fwds) && JobOK(jobs[k], fwds, calls, cfg);
      if jobs[k].setup.fwd == f && !jobs[k].life.ended {
        JobSeesGrowth(jobs[k], fwds[f], fwd, calls, cfg);
      }
    }
    forall g | g in fwds'
      ensures FwdOK(g, fwds'[g], jobs, cfg)
    {
      assert FwdOK(g, fwds[g], jobs, cfg);
    }
  }

  /** What is known about spares outlasts the changes that a job may see. */
  lemma SparesAfterPrime(d: Dests, cur: Path, pos: nat)
    requires pos < |d.slots| && d.slots[pos].path == cur
    ensures HaveSpare(d, cur) ==> HaveSpare(Extract(d, pos), cur)
    ensures DoneWithSpares(d, cur) ==> DoneWithSpares(Extract(d, pos), cur)
  {
    FirstNotPrimeIs(Extract(d, pos).slots, cur, FirstNotPrime(d.slots, cur));
  }

  lemma SparesAfterAdd(d: Dests, cur: Path, p: Path)
    requires !d.finalized
    ensures HaveSpare(d, cur) ==> HaveSpare(AddPath(d, p), cur)
    ensures DoneWithSpares(d, cur) ==> DoneWithSpares(AddPath(d, p), cur)
  {
    if HaveSpare(d, cur) { SpareStaysAfterAdd(d, cur, p); }
    DoneStaysDone(d, cur, p);
  }

  lemma SparesAfterEnd(d: Dests, peer: Option<Path>)
    ensures peer.Some? && HaveSpare(d, peer.value) ==> HaveSpare(Finalize(d), peer.value)
    ensures peer.Some? && DoneWithSpares(d, peer.value) ==> DoneWithSpares(Finalize(d), peer.value)
  {
  }

  lemma PathsStayPlaced(prime: Attempt, spare: Attempt, d: Dests, d': Dests, handled: set<nat>)
    requires PathsOK(prime, spare, d.slots, handled)
    requires d' == Finalize(d) || exists p :: d' == AddPath(d, p)
    ensures PathsOK(prime, spare, d'.slots, handled)
  {
    if d' != Finalize(d) {
      var p :| d' == AddPath(d, p);
      PathsAdd(prime, spare, d.slots, handled, p);
    }
  }

  lemma JobSeesGrowth(job: Job, fwd: Fwd, fwd': Fwd, calls: map<nat, Call>, cfg: Config)
    requires BaseOK(job, fwd, calls, cfg) && StableOK(job, fwd)
    requires fwd'.handled == fwd.handled && !fwd.dests.finalized && (fwd'.news.notified || job.client.canceled)
    requires fwd'.dests == Finalize(fwd.dests) || exists p :: fwd'.dests == AddPath(fwd.dests, p)
    ensures BaseOK(job, fwd', calls, cfg) && StableOK(job, fwd')
  {
    hide PathsOK, AnswersOK, HaveSpare, DoneWithSpares;
    SparesAfterEnd(fwd.dests, job.currentPeer);
    PathsStayPlaced(job.prime, job.spare, fwd.dests, fwd'.dests, fwd.handled);
    if fwd'.dests != Finalize(fwd.dests) {
      var p :| fwd'.dests == AddPath(fwd.dests, p);
      if job.currentPeer.Some? {
        SparesAfterAdd(fwd.dests, job.currentPeer.value, p);
      }
      if !Empty(fwd.dests) {
        FirstAvailableIs(fwd'.dests.slots, FirstAvailable(fwd.dests.slots));
      }
    }
  }

  lemma AbandonOK(f: nat, fwd: Fwd, jobs: map<nat, Job>, cfg: Config)
    requires FwdOK(f, fwd, jobs, cfg)
    ensures FwdOK(f, Abandon(fwd), jobs, cfg)
  {
    hide PathsOK, TriesLogged;
  }

  lemma LogGrows(log: seq<int>, n: int, n': int)
    requires TriesLogged(log, n) && n <= n'
    ensures TriesLogged(log + [n'], n')
  {
  }

  lemma ReceiptInRange(slots: seq<Slot>, handled: set<nat>, pos: nat)
    requires PathsOK(Idle, Idle, slots, handled) && pos in handled
    ensures pos < |slots|
  {
  }

  /** An idle job that is not done, knows all destinations, and could not start
    * anything, waits for an enforcer or for its primes to fail. */
  lemma NothingForgotten(job: Job, f: Fwd, calls: map<nat, Call>, cfg: Config)
    requires BaseOK(job, f, calls, cfg) && job.currentPeer.Some?
    requires !DoneWithPeer(f.dests, job.currentPeer.value)
    requires Empty(f.dests) || FindPrime(f.dests, job.currentPeer.value).pos == |f.dests.slots|
    requires Waiting(job.wait) || Empty(f.dests) || !HaveSpare(f.dests, job.currentPeer.value)
    ensures Active(job, f)
  {
    hide PathsOK, AnswersOK;
    var d, cur := f.dests, job.currentPeer.value;
    var i := FirstAvailable(d.slots);
    if d.finalized {
      assert i < |d.slots| && d.slots[i].path.peer == cur.peer;
      FirstNotPrimeIs(d.slots, cur, i);
      assert OnlySpares(d, cur);
    }
  }

  lemma NoteIrrelevant(job: Job, f: Fwd, calls: map<nat, Call>, cfg: Config)
    requires BaseOK(job, f, calls, cfg)
    ensures BaseOK(job, WithNotified(f, false), calls, cfg)
  {
    hide PathsOK, AnswersOK, HaveSpare, DoneWithSpares;
  }

  /** A worker starts without jobs, requests and calls. */
  lemma NothingYet(cfg: Config)
    ensures QueueOK(map[], [], PrimeChance) && QueueOK(map[], [], SpareAllowance) && Turns([], [], [], [])
    ensures CallsOK(map[], map[]) && LinksOK(map[], map[], cfg) && JobsOK(map[], map[], map[], cfg)
    ensures Holders(map[]) == {} && SettledOK(map[], map[], map[], cfg, 0.0) && Numbered(map[], map[], 0, 0)
  {
    hide JobOK, LinkOK, FwdOK, Forgotten;
  }
}
