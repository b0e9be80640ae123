# Verified models of Squid components

This project models parts of the Squid caching proxy in Dafny and proves what
they promise. `dafny verify dfyconfig.toml` checks all of it.

* `HappyModel`, `HappySpec`, `HappyConnOpener`, `HappyProperties`, `HappyRuns`,
  `ResolvedPeers`: Happy Eyeballs connection opening in one worker. Any number of
  connection-opening jobs share two waiting lists and a budget of spare
  connections; the requests that start the jobs retry after them. `Worker` is
  the state of a worker, its methods are the handlers, which do what the
  functions of `HappySpec` say, and `Run` shows that one invariant holds after
  every event of every run. `HappyProperties` says what the invariant means, and
  `HappyRuns` has runs that reach the unexpected states and the proofs that a
  forgotten job stays forgotten and that the others on a list get their turn.
* `BodyPipe`: the pipe that carries message bodies from a producer to a
  consumer, with the calls it schedules and the order in which they arrive.
* `SplayNode`, `SplayTree`, `SplayVisit`: the splay tree, on linked nodes, with
  its threaded traversal.
* `Heap`, `HeapRuns`, `HashTable`: the binary heap of the replacement policies,
  with whole runs of it, and the chained hash table whose iteration survives
  changes.
* `Md5`, `Base64`, `Base64Decode`, `Des`, `DesTables`, `Rfc1738`: streaming
  digests and codecs, the DES cipher, and URL escaping.
* `HttpHeader`, `HttpHdrRange`: the header container with its mask, updating of
  stored headers, and canonization of byte ranges.

Code that changes state in place is modelled by classes, arrays and loops that
are proved against functions on sequences, sets and maps; lemmas about these
functions carry the main results.

## What the proofs show to be different from what one would expect

Each of these is proved together with the exact condition under which it
happens.

* An allowance for a concurrent spare connection is not returned when the job
  that got it reuses a persistent connection (`AllowancesKept`,
  `AllowancesReturned`, `KeptAllowanceRun`): an ending job returns an allowance
  only together with an attempt that is under way. `NoteSpareAllowance`,
  `GivenAllowanceKept` and `AllowanceKeptByCheck` say exactly when that happens.
* Once such allowances reach the limit, a job that joins the list for an
  allowance is forgotten unless something else is to come for it
  (`NoJobForgotten`, `StarvedRun`), and stays so (`ForgottenForever`).
* With `happy_eyeballs_connect_limit 0`, a job whose last prime attempt failed
  while destinations were still coming fails an internal check when the next
  path belongs to another peer (`NextPeerFailsCheck`, `FailedCheckRun`), and is
  forgotten when it is a spare path of the same peer (`OwnSpareStalls`,
  `StalledRun`).
* A consumer that detaches from a body pipe and attaches again can be told
  twice that the body ended (`ToldTwice`), if and only if a call telling it so is
  still to fire when it attaches (`NeverToldTwice`, `ToldTwiceExactly`). If only
  data calls are, it hears those of its earlier attachment as well as its own
  (`HearsAnothers`, `ToldOnce`), but one end.
* A splay tree that was visited, then lost its largest value, then grew again
  can hold a thread to the removed node, and a visit would follow it
  (`LeftoverThread`, `VisitAll`).
* The base64 decoder accepts three padding characters after a letter that
  stands for zero bits (`DecodesExactly`, `TripleAccepted`); a comment in the
  code says that there can be at most two.
* After updating a stored header, an update is still needed if the fresh header
  has both a registered and an unregistered Vary field with different values
  (`UpdateSettles`). Parsing never yields an unregistered Vary field; an eCAP
  adapter can add one, by a name that carries no host id
  (squid-modified-aws/src/adaptation/ecap/MessageRep.cc:57-67 and 110-115).
* A comment calls what `heap_extractmin` returns the node with the largest key;
  the code returns one with the smallest key, and so does the model.

## Model

| member | source | states |
|---|---|---|
| `HappyProperties.AllowancesAccounted` | squid-modified-aws/src/HappyConnOpener.cc:247-315 | in every reachable state the concurrency level is the number of allowances on their way to jobs plus the number of jobs that have one; (level - 1) * workers stays below a positive connect limit; with a zero limit no allowance is ever out |
| `HappyProperties.AllowancesReturned` | squid-modified-aws/src/HappyConnOpener.cc:389-414 | when all jobs are over, the level is the number of jobs whose allowed spare was a reused persistent connection, so it is back at zero if and only if there was none |
| `HappyProperties.AllowancesKept` | squid-modified-aws/src/HappyConnOpener.cc:389-414 | at any time the level is the number of live jobs with an allowance plus the number of ended jobs whose allowed spare was a reused persistent connection; an ended job accounts for an allowance if and only if that is how it ended |
| `HappyProperties.WaitsExclusive` | squid-modified-aws/src/HappyConnOpener.h:36-72 | at most one wait reason; none beside a spare attempt; a job is on an enforcer's list, in one place, exactly while that reason holds and no call is pending |
| `HappyProperties.ListsHoldLiveJobs` | squid-modified-aws/src/HappyConnOpener.cc:151-186 | every job on a wait list is alive, so erasing by position and calling back are always valid |
| `HappyProperties.FirstComeFirstServed` | squid-modified-aws/src/HappyConnOpener.cc:151-186 | in every reachable state, whoever joined a wait list before a job that was called back does not wait there any more, and calls are made in the order of joining |
| `HappyProperties.NoJobForgotten` | squid-modified-aws/src/HappyConnOpener.cc:715-752 | which live jobs nothing still to come concerns: exactly those without a running attempt, a pending call or news to come that either wait for their primes to fail, under a zero connect limit, although only spares are left, or are on the list for an allowance while the limit is reached, no wake-up is scheduled and no live job has an allowance |
| `HappyProperties.LostAllowances` | squid-modified-aws/src/HappyConnOpener.cc:294-315 | the allowances that ended jobs keep reach the limit by themselves if and only if the limit is reached and no live job has an allowance |
| `HappyProperties.FailingCheckNeedsZeroLimit` | squid-modified-aws/src/HappyConnOpener.cc:715-752 | the check on the spare wait can fail only in a job that waits for its primes to fail, hence only under a zero connect limit |
| `HappyProperties.NextPeerFailsCheck` | squid-modified-aws/src/HappyConnOpener.cc:715-752 | and there it does fail: the job is idle and the next path belongs to another peer |
| `HappyProperties.OwnSpareStalls` | squid-modified-aws/src/HappyConnOpener.cc:845-881 | while a spare path of the same peer leaves such a job without any further step |
| `HappyProperties.TriesBounded` | squid-modified-aws/src/FwdState.cc:1095-1107 | over all retries of a request the attempt count never decreases and never exceeds forward_max_tries plus one |
| `HappyProperties.AttemptsBounded` | squid-modified-aws/src/HappyConnOpener.cc:885-903 | the attempts of a job, including those in flight, stay within the same limit |
| `HappyProperties.AnsweredOnce` | squid-modified-aws/src/HappyConnOpener.cc:389-414 | a live job has not answered; a job that ended answered exactly once unless its initiator is gone; an error comes with a failure and only with it |
| `HappyProperties.WaitHasAnEnd` | squid-modified-aws/src/FwdState.cc:840-905 | a request that waits for its opener has a live one, or one that ended with exactly one answer |
| `HappyProperties.PathsConserved` | squid-modified-aws/src/HappyConnOpener.cc:542-594 | every resolved path is in exactly one place: available, on the prime track, on the spare track, or handled |
| `HappyRuns.ForgottenForever` | squid-modified-aws/src/HappyConnOpener.cc:152-903 | a forgotten job stays exactly as it is, and forgotten, in every run in which it is not asked to stop and its request is not given up |
| `HappyRuns.StarvedRun` | squid-modified-aws/src/HappyConnOpener.cc:845-881 | a run that ends with a job on the list for an allowance that only an ended job has: it is forgotten |
| `HappyRuns.StalledRun` | squid-modified-aws/src/HappyConnOpener.cc:845-881 | a run that ends with a job waiting for its primes to fail although only a spare is left: it is forgotten |
| `HappyRuns.FailedCheckRun` | squid-modified-aws/src/HappyConnOpener.cc:715-752 | a run that ends with a job in which the check on the spare wait is about to fail |
| `HappyRuns.CallMoves` | squid-modified-aws/src/HappyConnOpener.cc:755-778 | an enforcer's call, once it fires, changes the job that expects it and leaves no call for it |
| `HappyRuns.TurnComes` | squid-modified-aws/src/HappyConnOpener.cc:173-228 | if time passes and wake-ups happen, a job on a wait list is called, unless it waits for an allowance and the limit is reached before its turn |
| `HappyRuns.KeptAllowanceRun` | squid-modified-aws/src/HappyConnOpener.cc:763-778 | a run after which all jobs are over and the concurrency level is one |
| `HappySpec.GivenAllowanceKept` | squid-modified-aws/src/HappyConnOpener.cc:763-778 | an allowance given by call is lost if and only if there is time for an attempt and a persistent connection is reused for it |
| `HappySpec.AllowanceKeptByCheck` | squid-modified-aws/src/HappyConnOpener.cc:715-752 | a check for new connections loses an allowance if and only if it gets as far as the spare, finds one, takes an allowance for it and reuses a persistent connection |
| `HappySpec.StalledUnmoved` | squid-modified-aws/src/HappyConnOpener.cc:715-752 | a stalled job stays as it is when it checks for new connections |
| `HappySpec.FailedCheckEnds` | squid-modified-aws/src/HappyConnOpener.cc:715-752 | a failed check ends the job with its final answer |
| `HappySpec.SpareLeft` | squid-modified-aws/src/HappyConnOpener.cc:715-752 | after a check a job is done or something to come moves it or only spares are left to it |
| `HappyModel.SparesAfterPrime` | squid-modified-aws/src/ResolvedPeers.cc:120-139 | what is known about spares outlasts the extraction of prime paths |
| `HappyModel.ServedInTurn` | squid-modified-aws/src/HappyConnOpener.cc:151-186 | from the history of a list: a job that joined before one that was called back does not wait any more, and those that wait are in the order of joining |
| `HappyModel.TurnJoin` | squid-modified-aws/src/HappyConnOpener.cc:152-158 | joining at the end keeps that history right |
| `HappyModel.TurnServe` | squid-modified-aws/src/HappyConnOpener.cc:173-186 | so does calling back the front job |
| `HappyModel.TurnLeave` | squid-modified-aws/src/HappyConnOpener.cc:161-170 | and so does leaving from anywhere |
| `HappyConnOpener.Worker.constructor` | squid-modified-aws/src/HappyConnOpener.cc:330-342 | a worker without requests satisfies the invariant |
| `HappyConnOpener.Worker.StartedWaiting` | squid-modified-aws/src/HappyConnOpener.cc:189-214 | true exactly while the pause is not over; then a wake-up is scheduled no later than the end of the pause and no later than the one scheduled before |
| `HappyConnOpener.Worker.ReadyNow` | squid-modified-aws/src/HappyConnOpener.cc:233-252 | readiness of a job; a job that is not ready leaves a wake-up or a reached limit behind |
| `HappyConnOpener.Worker.NotifyFront` | squid-modified-aws/src/HappyConnOpener.cc:239-259 | the front job leaves the list with a pending call, and an allowance is recorded for a spare |
| `HappyConnOpener.Worker.Checkpoint` | squid-modified-aws/src/HappyConnOpener.cc:173-186 | a prefix of the list is called in first-in first-out order, the rest stays in order and still has a wake-up; somebody is called if and only if the first one is ready; no scheduled call is lost |
| `HappyConnOpener.Worker.ForgetAllowance` | squid-modified-aws/src/HappyConnOpener.cc:294-299 | an allowance is taken back without underflow and waiting jobs are looked at again |
| `HappyConnOpener.Worker.JobDroppedAllowance` | squid-modified-aws/src/HappyConnOpener.cc:274-282 | the same for an allowance that was not used |
| `HappyConnOpener.Worker.JobGotInstantAllowance` | squid-modified-aws/src/HappyConnOpener.cc:262-265 | an allowance taken on the spot is accounted to the job |
| `HappyConnOpener.Worker.Enqueue` | squid-modified-aws/src/HappyConnOpener.cc:152-158 | the job joins the end of its list; the other list is unchanged |
| `HappyConnOpener.Worker.EraseFromList` | squid-modified-aws/src/HappyConnOpener.cc:161-170 | a job without a pending call is on its list and leaves it; the others keep their order and the other list is unchanged |
| `HappyConnOpener.Worker.CancelCall` | squid-modified-aws/src/HappyConnOpener.cc:161-170 | a job with a pending call is on no list; the call is gone |
| `HappyConnOpener.Worker.StopGivingPrimeItsChance` | squid-modified-aws/src/HappyConnOpener.cc:672-676 | ends that wait wherever the job is; nothing else of the job changes |
| `HappyConnOpener.Worker.StopWaitingForSpareAllowance` | squid-modified-aws/src/HappyConnOpener.cc:680-687 | ends that wait; an allowance on its way is returned |
| `HappyConnOpener.Worker.CancelSpareWait` | squid-modified-aws/src/HappyConnOpener.cc:691-702 | ends a wait for any of the four reasons |
| `HappyConnOpener.Worker.CheckRanOut` | squid-modified-aws/src/HappyConnOpener.cc:885-903 | the attempt and time limits; a limit once reached stays reached |
| `HappyConnOpener.Worker.Done` | squid-modified-aws/src/HappyConnOpener.cc:366-386 | a job is done exactly when nobody wants its answer, or nothing runs and nothing can start |
| `HappyConnOpener.Worker.StartPrime` | squid-modified-aws/src/HappyConnOpener.cc:542-594 | the path moves from the available ones to the prime track, or straight into an answer when a connection is reused |
| `HappyConnOpener.Worker.StartSpare` | squid-modified-aws/src/HappyConnOpener.cc:542-594 | the same on the spare track |
| `HappyConnOpener.Worker.MaybeGivePrimeItsChance` | squid-modified-aws/src/HappyConnOpener.cc:814-841 | which of the wait reasons a new prime attempt leads to |
| `HappyConnOpener.Worker.MaybeOpenPrimeConnection` | squid-modified-aws/src/HappyConnOpener.cc:782-809 | exactly what happens on the prime track: nothing without an available path, the first path to a new peer, or the next prime path of the current one |
| `HappyConnOpener.Worker.OpenPrimeToNewPeer` | squid-modified-aws/src/HappyConnOpener.cc:782-809 | the first available path becomes the current peer and is tried; the job waits as the settings say unless a connection was reused |
| `HappyConnOpener.Worker.MaybeOpenSpareConnection` | squid-modified-aws/src/HappyConnOpener.cc:845-881 | exactly what happens on the spare track: nothing, a wait for an allowance, or an attempt with or without an allowance |
| `HappyConnOpener.Worker.OpenSpareNow` | squid-modified-aws/src/HappyConnOpener.cc:845-881 | the same for a job that does not wait |
| `HappyConnOpener.Worker.CheckForNewConnection` | squid-modified-aws/src/HappyConnOpener.cc:715-752 | the new state of the job and its request as a function of what it finds; the check fails exactly under the stated condition; otherwise the job is done or something to come moves it |
| `HappyConnOpener.Worker.UpdateStaleState` | squid-modified-aws/src/HappyConnOpener.cc:715-752 | a peer that is over is forgotten, a wait for spares that are not coming becomes a wait for a new peer; when that cannot be done the check fails |
| `HappyConnOpener.Worker.SwanSong` | squid-modified-aws/src/HappyConnOpener.cc:389-414 | the exact last state: the final answer, no waits, the paths of unfinished attempts available again, and the allowance returned exactly with an unfinished spare attempt |
| `HappyConnOpener.Worker.CancelPrime` | squid-modified-aws/src/HappyConnOpener.cc:511-516 | the path of an unfinished prime attempt is available again |
| `HappyConnOpener.Worker.CancelSpare` | squid-modified-aws/src/HappyConnOpener.cc:511-516 | the same for a spare, together with its allowance |
| `HappyConnOpener.Worker.StartJob` | squid-modified-aws/src/HappyConnOpener.cc:359-363 | the exact outcome of the first check for connections, including the end of the call |
| `HappyConnOpener.Worker.NoteCandidatesChange` | squid-modified-aws/src/HappyConnOpener.cc:534-538 | the exact outcome of a check for connections; ends the job with its final answer when the check fails; does nothing to a stalled job |
| `HappyConnOpener.Worker.HandleStopRequest` | squid-modified-aws/src/base/AsyncJob.h:73 | a stopped job ends with its final answer, if any is wanted |
| `HappyConnOpener.Worker.NoteGavePrimeItsChance` | squid-modified-aws/src/HappyConnOpener.cc:755-760 | the wait is cleared, then the exact outcome of a check for connections |
| `HappyConnOpener.Worker.NoteSpareAllowance` | squid-modified-aws/src/HappyConnOpener.cc:763-778 | the allowance leads to a spare attempt or, when it comes too late, is returned; the job ends and keeps it if and only if it came in time and a persistent connection is reused |
| `HappyConnOpener.Worker.NotePrimeConnectDone` | squid-modified-aws/src/HappyConnOpener.cc:598-647 | success is answered with that connection and ends the job; a failure is recorded, may lift the restrictions on spares, and is followed by a check for connections with its exact outcome |
| `HappyConnOpener.Worker.NoteSpareConnectDone` | squid-modified-aws/src/HappyConnOpener.cc:605-647 | the same for the spare; its allowance is returned in either case |
| `HappyConnOpener.Worker.ReportSuccess` | squid-modified-aws/src/HappyConnOpener.cc:499-507 | one answer with the connection, and the end of the job |
| `HappyConnOpener.Worker.UpdateSpareWaitAfterPrimeFailure` | squid-modified-aws/src/HappyConnOpener.cc:651-668 | prime exhaustion lifts the spare restrictions; a mere failure ends the wait for the prime |
| `HappyConnOpener.Worker.NoteWaitOver` | squid-modified-aws/src/HappyConnOpener.cc:217-229 | jobs are resumed in order until one is not ready; one is if and only if the first is ready |
| `HappyConnOpener.Worker.NewRequest` | squid-modified-aws/src/FwdState.cc:120-180 | a request starts without attempts and without paths |
| `HappyConnOpener.Worker.StopAndDestroy` | squid-modified-aws/src/FwdState.cc:184-195 | exactly what ends: the request, and the interest in its opener; paths and attempts are kept |
| `HappyConnOpener.Worker.ConnectStart` | squid-modified-aws/src/FwdState.cc:1115-1145 | a new opener starts with the attempts made so far; nothing else changes |
| `HappyConnOpener.Worker.UseDestinations` | squid-modified-aws/src/FwdState.cc:437-455 | connects, waits for more paths, or gives up, depending on what is available; nothing else changes |
| `HappyConnOpener.Worker.RetryOrBail` | squid-modified-aws/src/FwdState.cc:691-790 | retries exactly if retrying is on and possible, attempts are left and time is left; ends the request otherwise |
| `HappyConnOpener.Worker.NoteConnection` | squid-modified-aws/src/FwdState.cc:840-905 | the attempt count of the answer is taken over; an error ends the request; a connection that closed on the way leads to a retry exactly if one is allowed; an open connection is used |
| `HappyConnOpener.Worker.SyncWithServerConn` | squid-modified-aws/src/FwdState.cc:1065-1082 | from here on no race with a closing connection is possible |
| `HappyConnOpener.Worker.TransportEnded` | squid-modified-aws/src/FwdState.cc:748-815 | a raced connection without a reply returns its path; otherwise paths are unchanged; then the request retries exactly if that is allowed |
| `HappyConnOpener.Worker.Complete` | squid-modified-aws/src/FwdState.cc:526-563 | forwards again exactly if that is allowed, tries are left and a path is or may be there |
| `HappyConnOpener.Worker.UsePinned` | squid-modified-aws/src/FwdState.cc:1149-1183 | a pinned connection counts as one attempt or ends the request |
| `HappyConnOpener.Worker.NoteDestination` | squid-modified-aws/src/FwdState.cc:587-613 | the path is appended and a waiting opener is told |
| `HappyConnOpener.Worker.NoteDestinationsEnd` | squid-modified-aws/src/FwdState.cc:616-657 | the list is final and a waiting opener is told, or the request ends |
| `HappyConnOpener.Worker.Tick` | squid-modified-aws/src/HappyConnOpener.cc:189-214 | the passing of time keeps the invariant |
| `HappyConnOpener.Worker.Fire` | squid-modified-aws/src/HappyConnOpener.cc:239-259 | any pending enforcer call may fire next; its job then has no call pending |
| `HappyConnOpener.Worker.Step` | squid-modified-aws/src/HappyConnOpener.cc:152-903 | any event that can happen keeps the invariant and disturbs only the settled jobs it is about |
| `HappyConnOpener.Worker.Run` | squid-modified-aws/src/HappyConnOpener.cc:152-903 | every run of events, in any order and of any length, keeps the invariant; settled jobs that no event is about stay settled |
| `ResolvedPeers.SpareStaysAfterAdd` | squid-modified-aws/src/ResolvedPeers.cc:83-100 | a spare path that is there stays there while paths are added |
| `ResolvedPeers.SpareKeepsPeer` | squid-modified-aws/src/ResolvedPeers.cc:161-196 | a peer with a spare is not done with |
| `ResolvedPeers.DoneStaysDone` | squid-modified-aws/src/ResolvedPeers.cc:169-196 | a verdict that primes, spares or a peer are over does not change while more paths arrive |
| `ResolvedPeers.ResolvedPeers.constructor` | squid-modified-aws/src/ResolvedPeers.cc:18-22 | an empty list |
| `ResolvedPeers.ResolvedPeers.IsEmpty` | squid-modified-aws/src/ResolvedPeers.h:46 | the cached count tells whether a path is available |
| `ResolvedPeers.ResolvedPeers.Add` | squid-modified-aws/src/ResolvedPeers.cc:48-53 | the path is appended and available; caches stay right |
| `ResolvedPeers.ResolvedPeers.ReinstatePath` | squid-modified-aws/src/ResolvedPeers.cc:25-45 | the path is available again at its old position; caches stay right |
| `ResolvedPeers.ResolvedPeers.ExtractFound` | squid-modified-aws/src/ResolvedPeers.cc:143-158 | only that path is taken; the cached position again is the first available path |
| `ResolvedPeers.ResolvedPeers.ExtractFront` | squid-modified-aws/src/ResolvedPeers.cc:113-117 | takes the first available path |
| `ResolvedPeers.ResolvedPeers.ExtractPrime` | squid-modified-aws/src/ResolvedPeers.cc:120-128 | takes the first available path of the current peer and family, if there is one |
| `ResolvedPeers.ResolvedPeers.FindSparePath` | squid-modified-aws/src/ResolvedPeers.cc:83-100 | the search from the cached position finds what a search of the whole list finds |
| `ResolvedPeers.ResolvedPeers.ExtractSpare` | squid-modified-aws/src/ResolvedPeers.cc:131-139 | nothing is returned exactly if there is no spare |
| `BodyPipe.StreamIntact` | squid-modified-aws/src/BodyPipe.cc:380-411 | in every reachable state the consumed bytes followed by the buffered ones are the produced ones; counters and body size agree |
| `BodyPipe.EndIsLast` | squid-modified-aws/src/BodyPipe.cc:414-443 | an attached consumer is sent at most one end, and no data after it |
| `BodyPipe.EndSentOnce` | squid-modified-aws/src/BodyPipe.cc:194-251 | a consumer attached when production is over was sent exactly one end, and the true one |
| `BodyPipe.ConsumerAbortedOnce` | squid-modified-aws/src/BodyPipe.cc:267-291 | the producer is told at most once that nobody consumes |
| `BodyPipe.ConsumerHearsEndLast` | squid-modified-aws/src/BodyPipe.cc:89-102 | a job that attached once hears at most one end and nothing after it, however often others attached |
| `BodyPipe.AttachmentHearsItsOwn` | squid-modified-aws/src/BodyPipe.cc:89-102 | in every run, an attachment that found no call to its job still to fire hears only its own notifications |
| `BodyPipe.AttachmentHearsEndLast` | squid-modified-aws/src/BodyPipe.cc:89-102 | in every run, an attachment that found no end to its job still to fire hears at most one end and nothing after it, even if it hears data of an earlier attachment |
| `BodyPipe.NeverToldTwice` | squid-modified-aws/src/BodyPipe.cc:89-251 | if a job attaches when no end to it is still to fire, then whatever run follows, that attachment is not told of the end twice and hears nothing after it |
| `BodyPipe.ToldTwiceExactly` | squid-modified-aws/src/BodyPipe.cc:89-251 | if an ordinary job attaches and the scheduled calls then fire, it is told of the end twice, and hears something after the end, if and only if an end to it was still to fire when it attached |
| `BodyPipe.AttachedExactly` | squid-modified-aws/src/BodyPipe.cc:228-251 | after an attachment, what is still to fire for its job is its own if and only if nothing was to fire for that job before |
| `BodyPipe.HearsAnothers` | squid-modified-aws/src/BodyPipe.cc:73-102 | whenever a call of an earlier attachment of the same ordinary job is still to fire, letting calls fire makes the current attachment hear it |
| `BodyPipe.ToldTwice` | squid-modified-aws/src/BodyPipe.cc:89-102 | a run in which a job that attached twice, the second time with an end still to fire, hears two ends |
| `BodyPipe.ToldOnce` | squid-modified-aws/src/BodyPipe.cc:89-102 | a run in which only data was still to fire the second time: the job hears data of its first attachment, but one end, last |
| `BodyPipe.BodyPipe.constructor` | squid-modified-aws/src/BodyPipe.cc:128-137 | an empty pipe satisfies the invariant |
| `BodyPipe.BodyPipe.SetBodySize` | squid-modified-aws/src/BodyPipe.cc:147-159 | the size becomes known before anybody consumes |
| `BodyPipe.BodyPipe.ExpectProductionEndAfter` | squid-modified-aws/src/BodyPipe.cc:184-191 | the size follows from what is still to come |
| `BodyPipe.BodyPipe.ClearProducer` | squid-modified-aws/src/BodyPipe.cc:194-210 | production ends once; at end of body the size becomes known; the consumer is sent the end |
| `BodyPipe.BodyPipe.PutMoreData` | squid-modified-aws/src/BodyPipe.cc:213-225 | exactly the bytes that fit are appended, and the notifications are in order |
| `BodyPipe.BodyPipe.PostAppend` | squid-modified-aws/src/BodyPipe.cc:395-411 | data is announced before the end; a complete body ends production |
| `BodyPipe.BodyPipe.StartAutoConsumptionIfNeeded` | squid-modified-aws/src/BodyPipe.cc:327-341 | a sink attaches exactly when nobody else consumes what is there |
| `BodyPipe.BodyPipe.SetConsumerIfNotLate` | squid-modified-aws/src/BodyPipe.cc:228-251 | a consumer attaches exactly if nothing was consumed; it hears of data and of an end that came before it; all calls still to fire for it are its own if and only if none was to fire for it before; whether it found an end still to fire |
| `BodyPipe.BodyPipe.ClearConsumer` | squid-modified-aws/src/BodyPipe.cc:254-264 | leaving early after consuming aborts consumption, once |
| `BodyPipe.BodyPipe.ExpectNoConsumption` | squid-modified-aws/src/BodyPipe.cc:267-291 | the producer is told unless it was told, the body is exhausted or somebody consumes |
| `BodyPipe.BodyPipe.EnableAutoConsumption` | squid-modified-aws/src/BodyPipe.cc:316-321 | what is buffered then has a consumer |
| `BodyPipe.BodyPipe.GetMoreData` | squid-modified-aws/src/BodyPipe.cc:294-306 | the next bytes in order, as many as fit |
| `BodyPipe.BodyPipe.Consume` | squid-modified-aws/src/BodyPipe.cc:309-313 | the same for a given number |
| `BodyPipe.BodyPipe.CheckOut` | squid-modified-aws/src/BodyPipe.cc:344-349 | the raw buffer is lent |
| `BodyPipe.BodyPipe.CheckIn` | squid-modified-aws/src/BodyPipe.cc:352-361 | bytes appended to the raw buffer were produced, bytes missing from it were consumed |
| `BodyPipe.BodyPipe.Fire` | squid-modified-aws/src/BodyPipe.cc:73-102 | calls fire in order and reach only the current producer or consumer; which attachment hears them |
| `BodyPipe.BodyPipe.Step` | squid-modified-aws/src/BodyPipe.cc:128-443 | any use of a pipe keeps the invariant and only extends the streams |
| `BodyPipe.BodyPipe.Run` | squid-modified-aws/src/BodyPipe.cc:128-443 | so does every run |
| `SplayNode.Splay` | squid-modified-aws/include/splay.h:170-232 | on linked nodes: the in-order sequence and the nodes are preserved, the last comparison is that with the new top, and everything left of the top is before and everything right of it after the sought value |
| `SplayNode.DescendLeft` | squid-modified-aws/include/splay.h:188-204 | one round to the left keeps the three parts of a search apart and in order |
| `SplayNode.DescendRight` | squid-modified-aws/include/splay.h:205-221 | one round to the right |
| `SplayNode.Assemble` | squid-modified-aws/include/splay.h:227-231 | closing both partial trees links one tree |
| `SplayNode.RotateRight` | squid-modified-aws/include/splay.h:192-200 | the rotation in memory |
| `SplayNode.RotateLeft` | squid-modified-aws/include/splay.h:209-217 | the rotation in memory |
| `SplayNode.LinkRight` | squid-modified-aws/include/splay.h:202-204 | setting aside the larger part |
| `SplayNode.LinkLeft` | squid-modified-aws/include/splay.h:219-221 | setting aside the smaller part |
| `SplayNode.AssembledOrder` | squid-modified-aws/include/splay.h:227-231 | smaller part, searched subtree and larger part make up the order of the result |
| `SplayTree.SplayTree.constructor` | squid-modified-aws/include/splay.h:43-93 | an empty tree |
| `SplayTree.SplayTree.Find` | squid-modified-aws/include/splay.h:302-316 | found exactly if an equivalent value is stored; contents and count are unchanged |
| `SplayTree.SplayTree.Insert` | squid-modified-aws/include/splay.h:318-332 | the contents become the sorted insertion, or the equivalent value is returned; the count follows; the largest node stays clear of threads |
| `SplayTree.SplayTree.Remove` | squid-modified-aws/include/splay.h:334-345 | the contents lose exactly the equivalent value; removing the largest one brings its predecessor to the top |
| `SplayTree.SplayTree.Run` | squid-modified-aws/include/splay.h:234-345 | over every run of searches, insertions, removals and visits the contents are those of a sorted set, every visit that ends hands out exactly the contents of that moment, and every visit ends if nothing was removed |
| `SplayTree.SplayTree.UseOnce` | squid-modified-aws/include/splay.h:234-345 | one such use; a visit takes place exactly if it would end |
| `SplayTree.InsertNode` | squid-modified-aws/include/splay.h:145-168 | the new node ends up between all smaller and all larger ones |
| `SplayTree.RemoveNode` | squid-modified-aws/include/splay.h:120-143 | overwriting the right child of the new top loses no node |
| `SplayTree.NothingRight` | squid-modified-aws/include/splay.h:120-143 | why: after splaying the smaller nodes nothing is right of their top |
| `SplayTree.SplayTree.Visit` | squid-modified-aws/include/splay.h:293-300 | every value is handed out once, in order; the tree is unchanged and ready to be visited again |
| `SplayTree.SplayTree.Destroy` | squid-modified-aws/include/splay.h:367-377 | the same with a visitor that frees each node |
| `SplayTree.ClearAfterRemoval` | squid-modified-aws/include/splay.h:334-345 | removal keeps the largest node clear unless it takes that node and the predecessor holds a thread |
| `SplayTree.LeftoverThread` | squid-modified-aws/include/splay.h:234-291 | on any tree: adding a largest value, visiting, removing it and adding a smallest value leaves a tree whose visit would follow a thread to the removed node |
| `SplayVisit.VisitEach` | squid-modified-aws/include/splay.h:234-291 | the threaded walk visits the nodes in order, each once, and ends, even if each visited node is freed, provided the last node is the head or has no thread |
| `SplayVisit.VisitAll` | squid-modified-aws/include/splay.h:234-291 | whatever threads are left, the walk visits all nodes in order and then stops if and only if that condition holds; otherwise it follows the leftover thread |
| `SplayVisit.Round` | squid-modified-aws/include/splay.h:253-290 | one round of the walk |
| `SplayVisit.ThreadBack` | squid-modified-aws/include/splay.h:275-283 | the last node of a left subtree leads back up |
| `Heap.Heap.constructor` | squid-modified-aws/lib/heap.c:71-88 | an empty heap with the initial size |
| `Heap.Heap.Insert` | squid-modified-aws/lib/heap.c:116-135 | heap order, positions and exactly one more node |
| `Heap.Heap.Delete` | squid-modified-aws/lib/heap.c:141-166 | heap order, positions and exactly that node less |
| `Heap.Heap.ExtractMin` | squid-modified-aws/lib/heap.c:187-204 | nothing exactly if empty; else the data of a node with the smallest key, which is removed |
| `Heap.Heap.ExtractLast` | squid-modified-aws/lib/heap.c:209-218 | the last node leaves; order is kept |
| `Heap.Heap.Update` | squid-modified-aws/lib/heap.c:227-241 | the node has the new key and data, order is restored, no node is lost |
| `Heap.Heap.PeepMinKey` | squid-modified-aws/lib/heap.c:256-261 | the smallest key |
| `Heap.Heap.VerifyHeapProperty` | squid-modified-aws/lib/heap.c:435-458 | true if and only if every node is at least its parent |
| `Heap.Heap.IfyUp` | squid-modified-aws/lib/heap.c:351-361 | restores order that is violated only towards the parent; same nodes |
| `Heap.Heap.IfyDown` | squid-modified-aws/lib/heap.c:318-346 | restores order that is violated only towards the children; same nodes |
| `Heap.Heap.SwapElement` | squid-modified-aws/lib/heap.c:367-375 | positions and places are exchanged together |
| `Heap.Heap.Grow` | squid-modified-aws/lib/heap.c:391-403 | a larger array with the same nodes |
| `Heap.RootIsMinimum` | squid-modified-aws/lib/heap.c:187-204 | heap order makes the root a minimum |
| `Heap.PromotedUp` | squid-modified-aws/lib/heap.c:351-361 | one swap upwards moves the only violation up |
| `Heap.DemotedDown` | squid-modified-aws/lib/heap.c:318-346 | one swap with the smaller child moves the only violation down |
| `Heap.LastMoved` | squid-modified-aws/lib/heap.c:141-166 | the last key in another place violates order only there |
| `HeapRuns.Run` | squid-modified-aws/lib/heap.c:71-241 | in every run of insertions, deletions, updates and extractions of the minimum or the last node: order holds, nodes know their positions, the contents are exactly what was put and not taken, as last updated, and every extracted minimum has the least key |
| `HeapRuns.UseOnce` | squid-modified-aws/lib/heap.c:116-241 | one operation changes the contents as specified and returns what it should |
| `HeapRuns.RightNext` | squid-modified-aws/lib/heap.c:116-241 | operations that are right one by one are right as a run |
| `HeapRuns.MinimaAscend` | squid-modified-aws/lib/heap.c:187-204 | minima extracted one after the other are different nodes with keys that do not decrease |
| `HashTable.HashTable.constructor` | squid-modified-aws/lib/hash.cc:107-122 | an empty table of the given or the default size |
| `HashTable.HashTable.First` | squid-modified-aws/lib/hash.cc:171-179 | an iteration starts with all links ahead of it |
| `HashTable.HashTable.Next` | squid-modified-aws/lib/hash.cc:187-197 | returns a link that is in the table and was not returned before; nothing exactly when none is ahead, and then every link present all along has been returned |
| `HashTable.HashTable.Stop` | squid-modified-aws/lib/hash.cc:203-209 | ends an iteration |
| `HashTable.HashTable.Join` | squid-modified-aws/lib/hash.cc:130-138 | the link is at the front of its bucket; whether a running iteration will return it |
| `HashTable.HashTable.Lookup` | squid-modified-aws/lib/hash.cc:145-158 | the most recently joined link with an equal key, or none exactly if there is none |
| `HashTable.HashTable.RemoveLink` | squid-modified-aws/lib/hash.cc:219-237 | the link leaves the table and the iteration, which goes on even if it stood there |
| `HashTable.HashTable.NextBucket` | squid-modified-aws/lib/hash.cc:160-165 | empty buckets are skipped without losing a link |
| `HashTable.HashTable.FreeItems` | squid-modified-aws/lib/hash.cc:251-265 | every link is collected exactly once |
| `HashTable.HashTable.Run` | squid-modified-aws/lib/hash.cc:107-265 | over every run of iterations, insertions, removals and lookups: a link that stays in the table is returned at most once, and exactly once when the iteration is over |
| `HashTable.HashTable.AllCounted` | squid-modified-aws/lib/hash.cc:130-138 | the count is the number of links in every state |
| `Md5.Context.constructor` | squid-modified-aws/lib/md5.cc:72-82 | the empty message |
| `Md5.Context.Update` | squid-modified-aws/lib/md5.cc:88-123 | whole blocks are digested, the rest is buffered, and the two-word count is the length modulo 2 to the 64 |
| `Md5.Context.Final` | squid-modified-aws/lib/md5.cc:129-159 | the block function folded over the padded message; the context is cleared |
| `Md5.Context.Count` | squid-modified-aws/lib/md5.cc:92-97 | the carry between the two words |
| `Md5.Context.Pad` | squid-modified-aws/lib/md5.cc:132-147 | the padding, with or without an extra block |
| `Md5.LengthWords` | squid-modified-aws/lib/md5.cc:150-152 | the two words written are the low 64 bits of the length in bits |
| `Md5.PaddedInBlocks` | squid-modified-aws/lib/md5.cc:129-159 | padding ends on a block boundary and is as short as possible |
| `Md5.PaddingInjective` | squid-modified-aws/lib/md5.cc:129-159 | different messages are never padded to the same text |
| `Md5.Digest` | squid-modified-aws/lib/md5.cc:88-159 | any way of cutting a message into updates gives the same digest |
| `Base64.EncodeRaw` | squid-modified-aws/lib/base64.cc:168-209 | the backward-writing loop writes exactly the encoding and nothing else |
| `Base64.EncodedLength` | squid-modified-aws/include/base64.h:60-62 | the exact length of an encoding |
| `Base64.EncodeConcat` | squid-modified-aws/lib/base64.cc:168-209 | whole groups encode independently of what follows |
| `Base64.Encoder.EncodeSingle` | squid-modified-aws/lib/base64.cc:239-259 | the letters that one more byte completes; the 16-bit word keeps the bits that matter |
| `Base64.Encoder.EncodeUpdate` | squid-modified-aws/lib/base64.cc:264-303 | the letters completed by a chunk, whether in bulk or byte by byte, within the length bound |
| `Base64.Encoder.EncodeFinal` | squid-modified-aws/lib/base64.cc:307-325 | the last letter and the padding, at most three characters |
| `Base64.EmittedAll` | squid-modified-aws/lib/base64.cc:264-325 | piecewise output followed by the final letters is the one-shot encoding |
| `Base64.UpdateFits` | squid-modified-aws/include/base64.h:52-55 | an update never writes more than the bound |
| `Base64.EncodeChunks` | squid-modified-aws/lib/base64.cc:264-325 | any way of cutting bytes into chunks gives the one-shot encoding |
| `Base64.LetterLookup` | squid-modified-aws/lib/base64.cc:54-79 | the decoding table inverts the alphabet, in both directions |
| `Base64Decode.Decoder.DecodeSingle` | squid-modified-aws/lib/base64.cc:81-125 | one step of the abstract decoder, although the word keeps old bits |
| `Base64Decode.Decoder.DecodeUpdate` | squid-modified-aws/lib/base64.cc:128-155 | succeeds exactly if every step does, writes exactly the bytes yielded, within the length bound |
| `Base64Decode.Decoder.DecodeFinal` | squid-modified-aws/lib/base64.cc:158-162 | no bits are left over |
| `Base64Decode.DecodesExactly` | squid-modified-aws/lib/base64.cc:81-162 | a text is accepted with some bytes if and only if, white space aside, it is their encoding, or the encoding of whole groups followed by one zero letter and three padding characters |
| `Base64Decode.RoundTrip` | squid-modified-aws/lib/base64.cc:81-162 | decoding undoes encoding with white space anywhere |
| `Base64Decode.TripleAccepted` | squid-modified-aws/lib/base64.cc:108-120 | three padding characters are accepted |
| `Base64Decode.RunConcat` | squid-modified-aws/lib/base64.cc:128-155 | decoding can be cut anywhere |
| `Base64Decode.DecodeChunks` | squid-modified-aws/lib/base64.cc:128-162 | any way of cutting a text into chunks gives the same result |
| `Base64Decode.RunSound` | squid-modified-aws/include/base64.h:115-116 | a text never yields more bytes than the bound |
| `Des.Cipher.Encrypt` | squid-modified-aws/lib/encrypt.c:187-210 | in place: initial permutation, sixteen rounds with the keys in either order, final permutation |
| `Des.Cipher.SetKey` | squid-modified-aws/lib/encrypt.c:212-237 | the schedule made by index arithmetic is that of repeatedly rotated halves; the expansion is the standard one |
| `Des.CryptMain` | squid-modified-aws/lib/encrypt.c:162-185 | one round changes only one half |
| `Des.CipherInverts` | squid-modified-aws/lib/encrypt.c:187-210 | either direction undoes the other, for every block, key schedule and expansion table |
| `Des.Deciphered` | squid-modified-aws/lib/encrypt.c:187-210 | the rounds in reverse order undo the rounds |
| `Des.RoundsUndone` | squid-modified-aws/lib/encrypt.c:162-185 | for any number of rounds, on exchanged halves |
| `Des.RotatedAtOnce` | squid-modified-aws/lib/encrypt.c:224-233 | rotating again and again is rotating once by the sum |
| `Des.ShiftBits` | squid-modified-aws/lib/encrypt.c:216-235 | the bits of the constant are the sixteen rotations of FIPS 46-3 |
| `Des.Perm` | squid-modified-aws/lib/encrypt.c:152-160 | the permutation by a table |
| `DesTables.HalvesExchanged` | squid-modified-aws/lib/encrypt.c:61-81 | the final permutation followed by the initial one exactly exchanges the halves |
| `HttpHeader.HttpHeader.constructor` | squid-modified-aws/src/HttpHeader.cc:280-286 | an empty header |
| `HttpHeader.HttpHeader.Clean` | squid-modified-aws/src/HttpHeader.cc:317-360 | no fields and no bits |
| `HttpHeader.HttpHeader.AddEntry` | squid-modified-aws/src/HttpHeader.cc:868-888 | the field is the last one and its bit is set |
| `HttpHeader.HttpHeader.DelById` | squid-modified-aws/src/HttpHeader.cc:798-818 | exactly the fields of a kind go; the count is positive exactly if the bit was set |
| `HttpHeader.HttpHeader.DelByName` | squid-modified-aws/src/HttpHeader.cc:779-795 | exactly the fields with a name go; the mask is right again |
| `HttpHeader.HttpHeader.Compact` | squid-modified-aws/src/HttpHeader.cc:843-849 | gaps go, fields stay |
| `HttpHeader.HttpHeader.RefreshMask` | squid-modified-aws/src/HttpHeader.cc:854-863 | the mask is right whatever it was |
| `HttpHeader.HttpHeader.Append` | squid-modified-aws/src/HttpHeader.cc:363-374 | all fields of another header follow |
| `HttpHeader.HttpHeader.FindEntry` | squid-modified-aws/src/HttpHeader.cc:734-754 | the first field of a kind; the search cannot come to its end without one |
| `HttpHeader.HttpHeader.GetList` | squid-modified-aws/src/HttpHeader.cc:922-951 | the values of a kind joined in order |
| `HttpHeader.HttpHeader.HasNamed` | squid-modified-aws/src/HttpHeader.cc:1015-1044 | the value under a name: that of the registered kind, else of the unregistered fields |
| `HttpHeader.HttpHeader.UpdateOrAddStr` | squid-modified-aws/src/HttpHeader.cc:1215-1250 | exactly one field of the kind, with the new value; other fields unchanged |
| `HttpHeader.HttpHeader.NeedUpdate` | squid-modified-aws/src/HttpHeader.cc:376-388 | whether a field of the other header, Vary apart, has another value here |
| `HttpHeader.HttpHeader.Update` | squid-modified-aws/src/HttpHeader.cc:399-431 | the fields that are not replaced, then the new ones, Vary apart |
| `HttpHeader.HttpHeader.RemoveHopByHopEntries` | squid-modified-aws/src/HttpHeader.cc:1842-1857 | the listed and the hop-by-hop fields go; the mask stays right |
| `HttpHeader.HttpHeader.RemoveConnectionHeaderEntries` | squid-modified-aws/src/HttpHeader.cc:1859-1886 | the fields that Connection lists go; the mask stays right |
| `HttpHeader.UpdateSettles` | squid-modified-aws/src/HttpHeader.cc:376-431 | after an update nothing is left to update if and only if the fresh header does not have a registered and an unregistered Vary with different values |
| `HttpHeader.TwoVariesExample` | squid-modified-aws/src/HttpHeader.cc:390-397 | such a header |
| `HttpHeader.KindAfter` | squid-modified-aws/src/HttpHeader.cc:399-431 | after an update the fields of a replaced kind are those of the fresh header, none for Vary |
| `HttpHdrRange.RangeSpec.Canonize` | squid-modified-aws/src/HttpHdrRange.cc:131-157 | a range then has exactly the bytes asked for that the object has, and is dropped exactly if there are none |
| `HttpHdrRange.RangeSpec.MergeWith` | squid-modified-aws/src/HttpHdrRange.cc:159-200 | merges exactly overlapping or adjacent ranges, where enabled, into one with the bytes of both |
| `HttpHdrRange.HttpHdrRange.GetCanonizedSpecs` | squid-modified-aws/src/HttpHdrRange.cc:348-361 | the satisfiable ranges in their order, each with exactly its bytes |
| `HttpHdrRange.HttpHdrRange.Merge` | squid-modified-aws/src/HttpHdrRange.cc:322-346 | ends, keeps the bytes, and leaves no range touching the next one when merging is enabled; keeps the list otherwise |
| `HttpHdrRange.HttpHdrRange.Canonize` | squid-modified-aws/src/HttpHdrRange.cc:385-397 | together the ranges have exactly the bytes asked for; true if and only if there is one |
| `HttpHdrRange.HttpHdrRange.IsComplex` | squid-modified-aws/src/HttpHdrRange.cc:401-421 | false if and only if the ranges are ascending and pairwise disjoint |
| `Rfc1738.Escaper.DoEscape` | squid-modified-aws/lib/rfc1738.cc:55-124 | over any sequence of calls the reused buffer holds the whole escaped text and its terminator |
| `Rfc1738.Unescape` | squid-modified-aws/lib/rfc1738.cc:145-172 | in place, without reading beyond the terminator |
| `Rfc1738.DecodeAt` | squid-modified-aws/lib/rfc1738.cc:150-169 | what one position stands for: a character, a doubled percent sign or an escape other than of zero |
| `Rfc1738.UnescapeUndoes` | squid-modified-aws/lib/rfc1738.cc:55-172 | unescaping undoes escaping when percent signs are escaped |
| `Rfc1738.RoundTripExactly` | squid-modified-aws/lib/rfc1738.cc:55-172 | for every combination of flags: unescaping undoes escaping on all texts if and only if percent signs are escaped |
| `Rfc1738.IdempotentExactly` | squid-modified-aws/include/rfc1738.h:44-55 | for every combination of flags: escaping twice is escaping once, on all texts, if and only if percent signs are not escaped |

## Left out

- Pointers between jobs: jobs, requests and calls are numbered and kept in maps, so that aliasing of these objects is not modelled; list positions are represented by membership.
- The order of the call queue around Happy Eyeballs jobs: any pending call may fire next, which covers the first-in first-out order. The queue of a body pipe does keep its order.
- Outcomes that come from elsewhere are inputs: whether an idle persistent connection can be reused, whether a connection attempt succeeds, whether a response may be retried for reasons other than attempts, and the clock.
- Jobs that nothing will change are recorded in a variable of the specification, `settled`, which no handler reads; StopRequest and Abort events remove jobs from the record, and the handlers for them exclude recorded jobs.
- BodyPipe.BodyPipe.PutMoreData: excludes appending after somebody was told that production is over, which the original does not check; its header lists this call among those made by producers.
- BodyPipe.BodyPipe.ClearProducer: excludes a producer that is set but gone and whose end somebody was told already; the original would tell it again.
- BodyPipe.BodyPipe.SetBodySize: excludes making the body complete by its size after somebody was told that it is not.
- BodyPipe.BodyPipe.ExpectProductionEndAfter: excludes the same.
- HappyConnOpener.Worker.NotePrimeConnectDone: does not say what `ready` is when the job drops a pending allowance, because another job may take it at once.
- HappyConnOpener.Worker.NoteSpareConnectDone: the same for the allowance that it returns.
- Wake-up events that become obsolete through reconfiguration or jumps of the clock.
- TLS and tunnel establishment, dispatching to protocols, QoS marks, and pinned connections other than as the first destination.
- Exceptions other than the failing check of the opener job; a job that fails the check ends as it would after catching the exception.
- The widths of counters, except where the code relies on wrap-around: the MD5 byte count, the 16-bit words of base64, and the signed characters of URL escaping.
- Growth and reallocation of `MemBuf`: the buffer of a body pipe is a sequence of bounded length.
- Freeing memory: nodes that the code frees are dropped; a visitor that frees nodes is modelled by one that overwrites their links.
- SplayTree.Find: takes the comparison with the sought value as a function that is consistent with the order of the tree, as a caller of the original has to guarantee.
- `start()`, `finish()` and the iterators of the splay tree, which add nothing to the traversal.
- Heap keys are real numbers, so that NaN is not a key; `heap_peep` and the skew statistics are left out.
- Hash functions and key comparison are parameters; `hashPrime` and the hash functions themselves are left out.
- The MD5 block function is a parameter, and the state it works on is abstract, so that the byte order of the result is not modelled.
- Base64 bit operations are written as arithmetic; encoding in place (source and target overlapping) and the URL alphabet are left out.
- `crypt()` with its salt: the cipher is proved for every expansion table, hence for every salted one.
- Header entries with the invalid id, the byte length `len`, statistics, parsing and printing of headers, values with embedded zero bytes, and the typed accessors.
- HttpHeader.HttpHeader.RemoveConnectionHeaderEntries: takes the test for list membership as a parameter.
- Parsing and printing of ranges, `willBeComplex()`, `firstOffset()` and `lowestOffset()`.
- Rfc1738.Unescape: takes a terminated array; what is beyond the terminator is not described.
