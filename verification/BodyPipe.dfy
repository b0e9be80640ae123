/** BodyPipe: a bounded pipe between one producer and one consumer at a time,
  * with asynchronous notifications. The call queue is kept whole, with a mark
  * between the calls that fired and those still to fire, so that what was ever
  * scheduled can be spoken about. */
module BodyPipe {
  import opened Wrappers
  import opened Bytes

  const MAX_CAPACITY: nat := 64 * 1024

  datatype Kind = Data | Ended | Aborted | Space | ConsumerAborted

  /** A scheduled call. `att` numbers the attachment of the consumer it is for. */
  datatype Note = Note(kind: Kind, to: Option<nat>, att: nat)

  /** The uses that producers, consumers and the main loop make of a pipe. */
  datatype Event =
    | SetSize(n: nat) | ExpectEnd(n: nat) | Put(data: seq<byte>) | StopProducing(atEof: bool)
    | Attach(c: nat) | StopConsuming | NoMoreConsumers | AutoConsume | Get(space: nat) | Drop(n: nat)
    | Lend | Return(content: seq<byte>) | FireNext | Gone(j: nat) | Born

  predicate IsEnd(n: Note) { n.kind == Ended || n.kind == Aborted }
  predicate ToConsumer(n: Note) { n.kind == Data || IsEnd(n) }

  function Min(a: nat, b: nat): nat { if a < b then a else b }

  // --- The call log ---

  /** An end notification is the last one of its attachment. */
  ghost predicate EndsLast(calls: seq<Note>) {
    forall i, k :: 0 <= i < k < |calls| && IsEnd(calls[i]) && ToConsumer(calls[k]) ==> calls[i].att != calls[k].att
  }

  /** Notifications go to the consumer of their attachment. */
  ghost predicate Addressed(calls: seq<Note>, attached: seq<nat>) {
    forall i :: 0 <= i < |calls| && ToConsumer(calls[i]) ==>
                  calls[i].att < |attached| && calls[i].to == Some(attached[calls[i].att])
  }

  ghost predicate EndSent(calls: seq<Note>, att: nat) {
    exists i :: 0 <= i < |calls| && IsEnd(calls[i]) && calls[i].att == att
  }

  /** End notifications say "ended" exactly when the whole body was produced. */
  ghost predicate EndsTrue(calls: seq<Note>, whole: bool) {
    forall i :: 0 <= i < |calls| && IsEnd(calls[i]) ==> (calls[i].kind == Ended <==> whole)
  }

  /** Nobody was told that production is over. */
  predicate NoEnds(calls: seq<Note>) {
    forall i :: 0 <= i < |calls| ==> !IsEnd(calls[i])
  }

  /** Calls fire in the order they were scheduled. */
  ghost predicate InOrder(delivered: seq<nat>, fired: nat) {
    && (forall i :: 0 <= i < |delivered| ==> delivered[i] < fired)
    && (forall i, k :: 0 <= i < k < |delivered| ==> delivered[i] < delivered[k])
  }

  /** No call to the job, as a consumer, is still to fire. */
  predicate NoneFor(calls: seq<Note>, fired: nat, c: nat) {
    forall k :: fired <= k < |calls| && ToConsumer(calls[k]) ==> calls[k].to != Some(c)
  }

  /** All calls to the job, as a consumer, that are still to fire belong to the given attachment. */
  ghost predicate OwnOnly(calls: seq<Note>, fired: nat, c: nat, att: nat) {
    forall k :: fired <= k < |calls| && ToConsumer(calls[k]) && calls[k].to == Some(c) ==> calls[k].att == att
  }

  /** No call telling the job, as a consumer, that production is over is still to fire. */
  predicate NoEndFor(calls: seq<Note>, fired: nat, c: nat) {
    forall k :: fired <= k < |calls| && IsEnd(calls[k]) ==> calls[k].to != Some(c)
  }

  /** How far the call queue was, when a consumer attached: the calls that had
    * fired and those that had been scheduled. */
  datatype Start = Start(fired: nat, logged: nat)

  /** What is scheduled for consumers belongs to the last attachment, since it started. */
  ghost predicate Latest(calls: seq<Note>, fired: nat, start: Start, att: nat) {
    && start.fired <= fired && start.logged <= |calls|
    && forall k :: start.logged <= k < |calls| && ToConsumer(calls[k]) ==> calls[k].att == att
  }

  /** Calls that an attachment hears are addressed to its job, fired since it
    * started, and are its own if they were scheduled since it started. */
  ghost predicate HeardBy(calls: seq<Note>, attached: seq<nat>, starts: seq<Start>, n: nat, att: nat)
    requires n < |calls|
  {
    && att < |attached| && att < |starts| && calls[n].to == Some(attached[att])
    && starts[att].fired <= n && (starts[att].logged <= n ==> calls[n].att == att)
  }

  /** What attachments hear. `heard` says which attachment was the current one
    * when each call reached its job. */
  ghost predicate Hearing(calls: seq<Note>, fired: nat, attached: seq<nat>, starts: seq<Start>,
                          delivered: seq<nat>, heard: seq<nat>) {
    && |starts| == |attached| && |heard| == |delivered|
    && (forall a :: 0 <= a < |starts| ==> starts[a].logged <= |calls|)
    && (attached != [] ==> Latest(calls, fired, starts[|attached| - 1], |attached| - 1))
    && (forall i :: 0 <= i < |delivered| ==> delivered[i] < |calls|)
    && (forall i :: 0 <= i < |delivered| && ToConsumer(calls[delivered[i]]) ==>
                      HeardBy(calls, attached, starts, delivered[i], heard[i]))
  }

  lemma HearNote(calls: seq<Note>, fired: nat, attached: seq<nat>, starts: seq<Start>,
                 delivered: seq<nat>, heard: seq<nat>, n: Note)
    requires Hearing(calls, fired, attached, starts, delivered, heard)
    requires ToConsumer(n) ==> attached != [] && n.att == |attached| - 1
    ensures Hearing(calls + [n], fired, attached, starts, delivered, heard)
  {
    var calls' := calls + [n];
    assert forall k :: 0 <= k < |calls| ==> calls'[k] == calls[k];
    assert calls'[|calls|] == n;
    forall i | 0 <= i < |delivered|
      ensures delivered[i] < |calls'| && calls'[delivered[i]] == calls[delivered[i]]
    {
    }
  }

  lemma HearAttach(calls: seq<Note>, fired: nat, attached: seq<nat>, starts: seq<Start>,
                   delivered: seq<nat>, heard: seq<nat>, c: nat)
    requires Hearing(calls, fired, attached, starts, delivered, heard)
    ensures Hearing(calls, fired, attached + [c], starts + [Start(fired, |calls|)], delivered, heard)
  {
    var attached', starts' := attached + [c], starts + [Start(fired, |calls|)];
    forall i | 0 <= i < |delivered| && ToConsumer(calls[delivered[i]])
      ensures HeardBy(calls, attached', starts', delivered[i], heard[i])
    {
      assert HeardBy(calls, attached, starts, delivered[i], heard[i]);
    }
  }

  lemma HearCall(calls: seq<Note>, fired: nat, attached: seq<nat>, starts: seq<Start>,
                 delivered: seq<nat>, heard: seq<nat>, now: nat)
    requires Hearing(calls, fired, attached, starts, delivered, heard) && fired < |calls|
    requires ToConsumer(calls[fired]) ==>
               attached != [] && now == |attached| - 1 && calls[fired].to == Some(attached[now])
    ensures Hearing(calls, fired + 1, attached, starts, delivered + [fired], heard + [now])
  {
    var delivered', heard' := delivered + [fired], heard + [now];
    forall i | 0 <= i < |delivered'|
      ensures delivered'[i] < |calls|
      ensures ToConsumer(calls[delivered'[i]]) ==> HeardBy(calls, attached, starts, delivered'[i], heard'[i])
    {
      if i < |delivered| {
        assert delivered'[i] == delivered[i] && heard'[i] == heard[i];
      } else {
        assert delivered'[i] == fired && heard'[i] == now;
      }
    }
  }

  lemma HearNothing(calls: seq<Note>, fired: nat, attached: seq<nat>, starts: seq<Start>,
                    delivered: seq<nat>, heard: seq<nat>)
    requires Hearing(calls, fired, attached, starts, delivered, heard)
    ensures Hearing(calls, fired + 1, attached, starts, delivered, heard)
  {
  }

  /** The holder of a raw buffer either appends to it or consumes from it. */
  predicate AppendedOrConsumed(lent: seq<byte>, buf: seq<byte>) {
    lent <= buf || (|buf| <= |lent| && buf == lent[|lent| - |buf|..])
  }

  function CountConsumerAborted(calls: seq<Note>): nat {
    if calls == [] then 0
    else CountConsumerAborted(calls[..|calls| - 1]) + (if calls[|calls| - 1].kind == ConsumerAborted then 1 else 0)
  }

  lemma LogNote(calls: seq<Note>, attached: seq<nat>, n: Note)
    requires EndsLast(calls) && Addressed(calls, attached)
    requires ToConsumer(n) ==> attached != [] && n.att == |attached| - 1 && n.to == Some(attached[n.att]) && !EndSent(calls, n.att)
    ensures EndsLast(calls + [n]) && Addressed(calls + [n], attached)
    ensures forall att :: EndSent(calls + [n], att) <==> EndSent(calls, att) || (IsEnd(n) && att == n.att)
    ensures CountConsumerAborted(calls + [n]) == CountConsumerAborted(calls) + (if n.kind == ConsumerAborted then 1 else 0)
  {
    var calls' := calls + [n];
    assert calls'[..|calls|] == calls;
    assert forall i :: 0 <= i < |calls| ==> calls'[i] == calls[i];
    forall att
      ensures EndSent(calls', att) <==> EndSent(calls, att) || (IsEnd(n) && att == n.att)
    {
      if EndSent(calls, att) {
        var i :| 0 <= i < |calls| && IsEnd(calls[i]) && calls[i].att == att;
        assert calls'[i] == calls[i];
      }
      if IsEnd(n) && att == n.att {
        assert calls'[|calls|] == n;
      }
    }
  }

  lemma LogTruth(calls: seq<Note>, n: Note, whole: bool)
    requires EndsTrue(calls, whole) && (IsEnd(n) ==> (n.kind == Ended <==> whole))
    ensures EndsTrue(calls + [n], whole)
    ensures NoEnds(calls) && !IsEnd(n) ==> NoEnds(calls + [n])
  {
  }

  lemma NoEndsYet(calls: seq<Note>, attached: seq<nat>)
    requires NoEnds(calls)
    ensures EndsTrue(calls, true) && EndsTrue(calls, false)
    ensures attached != [] ==> !EndSent(calls, |attached| - 1)
  {
  }

  /** A new attachment has received nothing yet. */
  lemma NewAttachment(calls: seq<Note>, attached: seq<nat>, c: nat)
    requires Addressed(calls, attached)
    ensures Addressed(calls, attached + [c]) && !EndSent(calls, |attached|)
  {
    assert forall k :: 0 <= k < |attached| ==> (attached + [c])[k] == attached[k];
  }

  /** Jobs are named in the order of creation. */
  ghost predicate KnownJobs(live: set<nat>, attached: seq<nat>, producer: Option<nat>, nextJob: nat) {
    && (forall j :: j in live ==> j < nextJob)
    && (forall j :: j in attached ==> j < nextJob)
    && (producer.Some? ==> producer.value < nextJob)
  }

  lemma KnownAttached(live: set<nat>, attached: seq<nat>, producer: Option<nat>, nextJob: nat, c: nat)
    requires KnownJobs(live, attached, producer, nextJob) && c < nextJob
    ensures KnownJobs(live, attached + [c], producer, nextJob)
  {
  }

  lemma KnownNew(live: set<nat>, attached: seq<nat>, producer: Option<nat>, nextJob: nat)
    requires KnownJobs(live, attached, producer, nextJob)
    ensures KnownJobs(live + {nextJob}, attached, producer, nextJob + 1)
    ensures nextJob !in live && nextJob !in attached && producer != Some(nextJob)
  {
  }

  /** What is still to fire for a job that attaches is its own if and only if
    * nothing was to fire for it before. */
  lemma AttachedExactly(calls: seq<Note>, more: seq<Note>, fired: nat, attached: seq<nat>, c: nat)
    requires Addressed(calls, attached) && fired <= |calls|
    requires forall i :: 0 <= i < |more| ==> more[i].att == |attached|
    ensures OwnOnly(calls + more, fired, c, |attached|) <==> NoneFor(calls, fired, c)
  {
    var all := calls + more;
    assert forall k :: 0 <= k < |calls| ==> all[k] == calls[k];
    if NoneFor(calls, fired, c) {
      forall k | fired <= k < |all| && ToConsumer(all[k]) && all[k].to == Some(c)
        ensures all[k].att == |attached|
      {
        if k >= |calls| { assert all[k] == more[k - |calls|]; }
      }
    }
    if OwnOnly(all, fired, c, |attached|) {
      forall k | fired <= k < |calls| && ToConsumer(calls[k])
        ensures calls[k].to != Some(c)
      {
        assert all[k] == calls[k] && calls[k].att < |attached|;
      }
    }
  }

  /** A pipe starts without calls and consumers. */
  lemma NothingYet(producer: nat)
    ensures EndsLast([]) && Addressed([], []) && NoEnds([]) && EndsTrue([], false) && CountConsumerAborted([]) == 0
    ensures InOrder([], 0) && Hearing([], 0, [], [], [], [])
    ensures KnownJobs({producer}, [], Some(producer), producer + 1)
  {
  }

  class BodyPipe {
    var bodySize: int
    var producer: Option<nat>
    var consumer: Option<nat>
    var putSize: nat
    var getSize: nat
    var buf: seq<byte>
    var mustAutoConsume: bool
    var abortedConsumption: bool
    var isCheckedOut: bool
    var checkedOutSize: nat

    /** Jobs that exist: a pointer may be set to a job that is gone. */
    var live: set<nat>
    var nextJob: nat
    /** Jobs that are BodySinks. */
    var sinks: set<nat>
    var calls: seq<Note>
    var fired: nat

    /** The consumers, in the order of their attachment. */
    var attached: seq<nat>
    /** The positions, in the call log, of the calls that reached their job. */
    var delivered: seq<nat>

    /** Which attachment was current when each of these calls was made. */
    ghost var heard: seq<nat>
    /** Where the call queue was when each consumer attached. */
    ghost var starts: seq<Start>

    ghost var produced: seq<byte>
    ghost var consumed: seq<byte>
    /** The content that was checked out. */
    ghost var lent: seq<byte>

    predicate ValidPtr(p: Option<nat>)
      reads this`live
    {
      p.Some? && p.value in live
    }

    predicate BodySizeKnown()
      reads this`bodySize
    {
      bodySize >= 0
    }

    predicate MayNeedMoreData()
      reads this`bodySize, this`putSize
    {
      !BodySizeKnown() || bodySize - putSize > 0
    }

    predicate ProductionEnded()
      reads this`producer, this`live
    {
      !ValidPtr(producer)
    }

    predicate ExpectMoreAfter(offset: nat)
      reads this`bodySize, this`putSize, this`producer, this`live
    {
      offset < putSize || (!ProductionEnded() && MayNeedMoreData())
    }

    predicate Exhausted()
      reads this`bodySize, this`putSize, this`producer, this`live, this`getSize
    {
      !ExpectMoreAfter(getSize)
    }

    /** The whole body was produced. */
    predicate Whole()
      reads this`bodySize, this`putSize
    {
      BodySizeKnown() && bodySize == putSize
    }

    function PotentialSpaceSize(): nat
      reads this`buf
    {
      if |buf| + 1 < MAX_CAPACITY then MAX_CAPACITY - (|buf| + 1) else 0
    }

    // --- Invariant ---

    ghost predicate Stream()
      reads this`bodySize, this`putSize, this`getSize, this`buf, this`isCheckedOut, this`checkedOutSize, this`produced,
            this`consumed, this`lent
    {
      && putSize == |produced| && getSize == |consumed| && -1 <= bodySize
      && (BodySizeKnown() ==> putSize <= bodySize)
      && |buf| < MAX_CAPACITY
      && (!isCheckedOut ==> consumed + buf == produced)
      && (isCheckedOut ==> consumed + lent == produced && |lent| == checkedOutSize && AppendedOrConsumed(lent, buf))
    }

    ghost predicate Log()
      reads this`calls, this`attached, this`fired, this`consumer, this`producer, this`live, this`bodySize, this`putSize,
            this`abortedConsumption, this`delivered, this`heard, this`starts
    {
      && EndsLast(calls) && Addressed(calls, attached) && fired <= |calls|
      && (consumer.Some? ==> attached != [] && attached[|attached| - 1] == consumer.value)
      && (ValidPtr(producer) ==> NoEnds(calls))
      && EndsTrue(calls, Whole())
      && (ValidPtr(consumer) && producer.None? ==> EndSent(calls, |attached| - 1))
      && CountConsumerAborted(calls) == (if abortedConsumption then 1 else 0)
      && InOrder(delivered, fired)
      && Hearing(calls, fired, attached, starts, delivered, heard)
    }

    ghost predicate Jobs()
      reads this`live, this`attached, this`producer, this`nextJob
    {
      KnownJobs(live, attached, producer, nextJob)
    }

    ghost predicate Valid()
      reads this
    {
      Stream() && Log() && Jobs()
    }

    /** What was scheduled, who attached and what was heard is never taken back. */
    twostate predicate Grown()
      reads this`calls, this`attached, this`starts, this`delivered, this`heard
    {
      && old(calls) <= calls && old(attached) <= attached && old(starts) <= starts
      && old(delivered) <= delivered && old(heard) <= heard
    }

    /** No call to its job was still to fire when that consumer attached. */
    ghost predicate FoundNothing(att: nat)
      reads this`attached, this`starts, this`calls
    {
      && att < |attached| && att < |starts| && starts[att].logged <= |calls|
      && NoneFor(calls[..starts[att].logged], starts[att].fired, attached[att])
    }

    /** No call telling its job of an end was still to fire when that consumer attached. */
    ghost predicate FoundNoEnd(att: nat)
      reads this`attached, this`starts, this`calls
    {
      && att < |attached| && att < |starts| && starts[att].logged <= |calls|
      && NoEndFor(calls[..starts[att].logged], starts[att].fired, attached[att])
    }

    ghost predicate Unused(aProducer: nat)
      reads this
    {
      && producer == Some(aProducer) && consumer.None? && bodySize == -1 && putSize == 0 && getSize == 0
      && produced == [] && consumed == [] && buf == [] && calls == [] && attached == [] && fired == 0
      && delivered == [] && heard == [] && starts == []
      && !mustAutoConsume && !abortedConsumption && !isCheckedOut
      && live == {aProducer} && nextJob == aProducer + 1 && sinks == {}
    }

    lemma UnusedIsValid(aProducer: nat)
      requires Unused(aProducer)
      ensures Valid()
    {
      hide EndsLast, Addressed, EndSent, EndsTrue, NoEnds, CountConsumerAborted, InOrder, Hearing, KnownJobs,
           AppendedOrConsumed;
      NothingYet(aProducer);
      assert consumed + buf == produced;
    }

    constructor (aProducer: nat)
      ensures Valid() && Unused(aProducer)
    {
      bodySize, producer, consumer, putSize, getSize, buf := -1, Some(aProducer), None, 0, 0, [];
      mustAutoConsume, abortedConsumption, isCheckedOut, checkedOutSize := false, false, false, 0;
      live, nextJob, sinks := {aProducer}, aProducer + 1, {};
      calls, fired, attached, delivered, heard, starts := [], 0, [], [], [], [];
      produced, consumed, lent := [], [], [];
      new;
      hide Valid;
      UnusedIsValid(aProducer);
    }

    // --- Scheduling ---

    function DataNotes(): seq<Note>
      reads this`consumer, this`live, this`attached
    {
      if ValidPtr(consumer) && attached != [] then [Note(Data, consumer, |attached| - 1)] else []
    }

    function EndNotes(): seq<Note>
      reads this`consumer, this`live, this`attached, this`bodySize, this`putSize
    {
      if ValidPtr(consumer) && attached != []
      then [Note(if Whole() then Ended else Aborted, consumer, |attached| - 1)] else []
    }

    method ScheduleBodyDataNotification()
      requires Log() && (ValidPtr(consumer) ==> !EndSent(calls, |attached| - 1))
      modifies this`calls
      ensures Log() && calls == old(calls) + DataNotes() && (old(NoEnds(calls)) ==> NoEnds(calls))
    {
      hide EndsLast, Addressed, EndSent, EndsTrue, NoEnds, CountConsumerAborted, InOrder, Hearing;
      if ValidPtr(consumer) {
        LogNote(calls, attached, Note(Data, consumer, |attached| - 1));
        HearNote(calls, fired, attached, starts, delivered, heard, Note(Data, consumer, |attached| - 1));
        LogTruth(calls, Note(Data, consumer, |attached| - 1), Whole());
        calls := calls + [Note(Data, consumer, |attached| - 1)];
      }
    }

    /** Everything in `Log` but the promise of an end notification. */
    ghost predicate LogBeforeEnd()
      reads this`calls, this`attached, this`fired, this`consumer, this`producer, this`live, this`bodySize, this`putSize,
            this`abortedConsumption, this`delivered, this`heard, this`starts
    {
      && EndsLast(calls) && Addressed(calls, attached) && fired <= |calls|
      && (consumer.Some? ==> attached != [] && attached[|attached| - 1] == consumer.value)
      && !ValidPtr(producer)
      && EndsTrue(calls, Whole())
      && (ValidPtr(consumer) ==> !EndSent(calls, |attached| - 1))
      && CountConsumerAborted(calls) == (if abortedConsumption then 1 else 0)
      && InOrder(delivered, fired)
      && Hearing(calls, fired, attached, starts, delivered, heard)
    }

    method ScheduleBodyEndNotification()
      requires LogBeforeEnd()
      modifies this`calls
      ensures Log() && calls == old(calls) + EndNotes()
    {
      hide EndsLast, Addressed, EndSent, EndsTrue, NoEnds, CountConsumerAborted, InOrder, Hearing;
      if ValidPtr(consumer) {
        var n := Note(if BodySizeKnown() && bodySize == putSize then Ended else Aborted, consumer, |attached| - 1);
        LogNote(calls, attached, n);
        HearNote(calls, fired, attached, starts, delivered, heard, n);
        LogTruth(calls, n, Whole());
        calls := calls + [n];
      }
    }

    // --- Producer side ---

    method SetBodySize(size: nat)
      requires Valid() && !BodySizeKnown() && putSize <= size && !ValidPtr(consumer)
      requires NoEnds(calls) || putSize < size
      modifies this`bodySize
      ensures Valid() && bodySize == size
    {
      bodySize := size;
    }

    method ExpectProductionEndAfter(size: nat)
      requires Valid() && (BodySizeKnown() ==> bodySize == putSize + size)
      requires NoEnds(calls) || BodySizeKnown() || size > 0
      modifies this`bodySize
      ensures Valid() && bodySize == putSize + size
    {
      if !BodySizeKnown() {
        bodySize := putSize + size;
      }
    }

    /** Ends production, with or without having reached the end of the body. */
    method ClearProducer(atEof: bool)
      requires Valid() && (producer.Some? ==> NoEnds(calls))
      requires producer.Some? && !atEof ==> !Whole()
      modifies this`producer, this`bodySize, this`calls
      ensures Valid() && producer.None?
      ensures bodySize == if old(producer).Some? && atEof && !old(BodySizeKnown()) then putSize else old(bodySize)
      ensures calls == old(calls) + (if old(producer).Some? then EndNotes() else [])
    {
      hide EndsLast, Addressed, EndSent, EndsTrue, NoEnds, CountConsumerAborted, InOrder, Hearing;
      if producer.Some? {
        NoEndsYet(calls, attached);
        producer := None;
        if atEof && !BodySizeKnown() {
          bodySize := putSize;
        }
        ScheduleBodyEndNotification();
      }
    }

    /** Bytes that may still be put, given the body size and the buffer. */
    function Accepts(size: nat): nat
      requires putSize <= bodySize || bodySize < 0
      reads this`bodySize, this`putSize, this`buf
    {
      Min(if BodySizeKnown() then Min(size, bodySize - putSize) else size, PotentialSpaceSize())
    }

    /** Appends as much of the data as fits and returns how much that was. */
    method PutMoreData(data: seq<byte>) returns (n: nat)
      requires Valid() && !isCheckedOut && (NoEnds(calls) || Accepts(|data|) == 0)
      modifies this`buf, this`putSize, this`produced, this`calls, this`producer, this`bodySize,
               this`consumer, this`live, this`sinks, this`attached, this`starts, this`nextJob
      ensures Grown()
      ensures Valid() && n == old(Accepts(|data|)) <= |data| && bodySize == old(bodySize)
      ensures produced == old(produced) + data[..n]
      ensures n == 0 ==> calls == old(calls)
      ensures n > 0 ==> Appended(old(calls), old(consumer), old(attached), old(live))
      ensures producer == if n > 0 && !MayNeedMoreData() then None else old(producer)
      ensures old(ValidPtr(consumer)) ==>
                && consumer == old(consumer) && attached == old(attached) && starts == old(starts)
                && live == old(live) && sinks == old(sinks) && nextJob == old(nextJob)
    {
      hide Log, Jobs, Appended, NoEnds;
      n := |data|;
      if BodySizeKnown() {
        n := Min(n, bodySize - putSize);
      }
      n := Min(n, PotentialSpaceSize());
      if n > 0 {
        buf := buf + data[..n];
        PostAppend(n, data[..n]);
      } else {
        assert data[..n] == [];
      }
    }

    /** What an append schedules: data, then the end if this was the end; with
      * auto-consumption and nobody to consume, a new sink hears of the data. */
    ghost predicate Appended(was: seq<Note>, consumer0: Option<nat>, attached0: seq<nat>, live0: set<nat>)
      reads this
    {
      if consumer0.Some? && consumer0.value in live0 && attached0 != []
      then calls == was + [Note(Data, consumer0, |attached0| - 1)]
                    + (if Whole() then [Note(Ended, consumer0, |attached0| - 1)] else [])
      else if mustAutoConsume && ValidPtr(producer)
      then consumer.Some? && consumer.value in sinks && attached == attached0 + [consumer.value]
           && calls == was + [Note(Data, consumer, |attached0|)]
      else calls == was
    }

    method RecordAppend(size: nat, ghost chunk: seq<byte>)
      requires Log() && !isCheckedOut && NoEnds(calls) && size == |chunk|
      requires consumed + buf == produced + chunk && putSize == |produced| && getSize == |consumed|
      requires |buf| < MAX_CAPACITY && -1 <= bodySize && (BodySizeKnown() ==> putSize + size <= bodySize)
      modifies this`putSize, this`produced
      ensures Stream() && Log() && produced == old(produced) + chunk && putSize == old(putSize) + size
    {
      hide EndsLast, Addressed, EndSent, EndsTrue, NoEnds, CountConsumerAborted, InOrder, Hearing;
      NoEndsYet(calls, attached);
      putSize := putSize + size;
      produced := produced + chunk;
    }

    lemma ConsumerAttached()
      requires Log() && consumer.Some?
      ensures attached != []
    {
    }

    /** The consumer hears of new data and, if that was the rest of the body, of the end. */
    method Announce()
      requires Valid() && NoEnds(calls)
      modifies this`calls, this`producer, this`bodySize
      ensures Valid() && bodySize == old(bodySize)
      ensures producer == if !MayNeedMoreData() then None else old(producer)
      ensures calls == old(calls) + DataNotes() + (if Whole() then EndNotes() else [])
    {
      hide EndsLast, Addressed, EndSent, EndsTrue, NoEnds, CountConsumerAborted, InOrder, Hearing, KnownJobs;
      NoEndsYet(calls, attached);
      ScheduleBodyDataNotification();
      if !MayNeedMoreData() {
        ClearProducer(true);
      }
    }

    method AnnounceAppend(size: nat, ghost chunk: seq<byte>)
      requires Log() && Jobs() && !isCheckedOut && NoEnds(calls) && size == |chunk|
      requires consumed + buf == produced + chunk && putSize == |produced| && getSize == |consumed|
      requires |buf| < MAX_CAPACITY && -1 <= bodySize && (BodySizeKnown() ==> putSize + size <= bodySize)
      modifies this`putSize, this`produced, this`calls, this`producer, this`bodySize
      ensures Valid() && produced == old(produced) + chunk && bodySize == old(bodySize)
      ensures producer == if !MayNeedMoreData() then None else old(producer)
      ensures calls == old(calls) + DataNotes() + (if Whole() then EndNotes() else [])
    {
      hide Log, Jobs, NoEnds;
      RecordAppend(size, chunk);
      Announce();
    }

    method PostAppend(size: nat, ghost chunk: seq<byte>)
      requires Log() && Jobs() && !isCheckedOut && NoEnds(calls) && size == |chunk| && size > 0
      requires consumed + buf == produced + chunk && putSize == |produced| && getSize == |consumed|
      requires size <= |buf| < MAX_CAPACITY && -1 <= bodySize && (BodySizeKnown() ==> putSize + size <= bodySize)
      modifies this`putSize, this`produced, this`calls, this`producer, this`bodySize,
               this`consumer, this`live, this`sinks, this`attached, this`starts, this`nextJob
      ensures Grown()
      ensures Valid() && produced == old(produced) + chunk && bodySize == old(bodySize)
      ensures Appended(old(calls), old(consumer), old(attached), old(live))
      ensures producer == if !MayNeedMoreData() then None else old(producer)
      ensures old(ValidPtr(consumer)) ==>
                && consumer == old(consumer) && attached == old(attached) && starts == old(starts)
                && live == old(live) && sinks == old(sinks) && nextJob == old(nextJob)
    {
      hide Log, Valid, NoEnds;
      if consumer.Some? { ConsumerAttached(); }
      AnnounceAppend(size, chunk);
      StartAutoConsumptionIfNeeded();
    }

    predicate StartNow()
      reads this`mustAutoConsume, this`consumer, this`live, this`producer, this`buf
    {
      mustAutoConsume && !ValidPtr(consumer) && ValidPtr(producer) && |buf| > 0
    }

    /** A BodySink attaches itself if the producer has nobody to produce for. */
    method StartAutoConsumptionIfNeeded()
      requires Valid()
      modifies this`consumer, this`live, this`sinks, this`attached, this`starts, this`nextJob, this`calls
      ensures Valid() && Grown()
      ensures old(StartNow()) ==>
                && consumer == Some(old(nextJob)) && attached == old(attached) + [old(nextJob)]
                && old(nextJob) !in old(live) && live == old(live) + {old(nextJob)} && sinks == old(sinks) + {old(nextJob)}
                && starts == old(starts) + [Start(fired, |old(calls)|)]
                && calls == old(calls) + [Note(Data, consumer, |old(attached)|)]
      ensures !old(StartNow()) ==>
                && consumer == old(consumer) && attached == old(attached) && live == old(live)
                && sinks == old(sinks) && calls == old(calls) && starts == old(starts)
                && nextJob == old(nextJob)
    {
      hide Valid;
      if StartNow() {
        StartAutoConsumption();
      }
    }

    method AddSink()
      modifies this`consumer, this`live, this`sinks, this`attached, this`starts, this`nextJob
      ensures consumer == Some(old(nextJob)) && attached == old(attached) + [old(nextJob)]
      ensures nextJob == old(nextJob) + 1
      ensures live == old(live) + {old(nextJob)} && sinks == old(sinks) + {old(nextJob)}
      ensures starts == old(starts) + [Start(fired, |calls|)]
    {
      starts := starts + [Start(fired, |calls|)];
      consumer := Some(nextJob);
      live := live + {nextJob};
      sinks := sinks + {nextJob};
      attached := attached + [nextJob];
      nextJob := nextJob + 1;
    }

    method StartAutoConsumption()
      requires Valid() && StartNow()
      modifies this`consumer, this`live, this`sinks, this`attached, this`starts, this`nextJob, this`calls
      ensures Valid() && consumer == Some(old(nextJob)) && attached == old(attached) + [old(nextJob)]
      ensures live == old(live) + {old(nextJob)} && sinks == old(sinks) + {old(nextJob)}
      ensures old(nextJob) !in old(live)
      ensures starts == old(starts) + [Start(fired, |old(calls)|)]
      ensures calls == old(calls) + [Note(Data, consumer, |old(attached)|)]
    {
      hide EndsLast, Addressed, EndSent, EndsTrue, NoEnds, CountConsumerAborted, InOrder, Hearing, Stream, KnownJobs;
      NewAttachment(calls, attached, nextJob);
      HearAttach(calls, fired, attached, starts, delivered, heard, nextJob);
      KnownNew(live, attached, producer, nextJob);
      KnownAttached(live + {nextJob}, attached, producer, nextJob + 1, nextJob);
      AddSink();
      ScheduleBodyDataNotification();
    }

    // --- Consumer side ---

    lemma JustStarted(was: seq<Note>)
      requires Valid() && attached != [] && |starts| == |attached| && was <= calls && starts[|attached| - 1] == Start(fired, |was|)
      ensures FoundNothing(|attached| - 1) <==> NoneFor(was, fired, attached[|attached| - 1])
      ensures FoundNoEnd(|attached| - 1) <==> NoEndFor(was, fired, attached[|attached| - 1])
    {
      hide EndsLast, Addressed, EndSent, EndsTrue, NoEnds, CountConsumerAborted, InOrder, Latest, NoneFor, NoEndFor;
      assert calls[..|was|] == was;
    }

    /** Attaches a consumer unless something was consumed already. */
    method SetConsumerIfNotLate(c: nat) returns (ok: bool)
      requires Valid() && !ValidPtr(consumer) && c < nextJob
      requires if getSize > 0 then mustAutoConsume else !abortedConsumption
      modifies this`consumer, this`attached, this`starts, this`calls
      ensures Valid() && (ok <==> getSize == 0)
      ensures !ok ==> consumer == old(consumer) && attached == old(attached) && calls == old(calls) && starts == old(starts)
      ensures ok ==>
                && consumed == [] && consumer == Some(c) && attached == old(attached) + [c]
                && starts == old(starts) + [Start(fired, |old(calls)|)]
                && (OwnOnly(calls, fired, c, |attached| - 1) <==> NoneFor(old(calls), fired, c))
                && (FoundNothing(|attached| - 1) <==> NoneFor(old(calls), fired, c))
                && (FoundNoEnd(|attached| - 1) <==> NoEndFor(old(calls), fired, c))
                && calls == old(calls) + (if buf != [] then DataNotes() else [])
                            + (if !ValidPtr(producer) then EndNotes() else [])
    {
      hide Valid, NoneFor, NoEndFor, OwnOnly, FoundNothing, FoundNoEnd, Addressed;
      if getSize > 0 {
        return false;
      }
      ok := true;
      InLog();
      ghost var more := AttachFirst(c);
      assert attached[|attached| - 1] == c;
      JustStarted(old(calls));
      AttachedExactly(old(calls), more, fired, old(attached), c);
    }

    lemma InLog()
      requires Valid()
      ensures Addressed(calls, attached) && fired <= |calls| && |starts| == |attached|
      ensures getSize == 0 ==> consumed == []
    {
      hide EndsLast, Addressed, EndSent, EndsTrue, NoEnds, CountConsumerAborted, InOrder, KnownJobs, Latest;
    }

    /** A consumer attaches before anything was consumed; returns what is scheduled for it. */
    method AttachFirst(c: nat) returns (ghost more: seq<Note>)
      requires Valid() && !ValidPtr(consumer) && c < nextJob && getSize == 0 && !abortedConsumption
      modifies this`consumer, this`attached, this`starts, this`calls
      ensures Valid() && consumer == Some(c) && attached == old(attached) + [c]
      ensures starts == old(starts) + [Start(fired, |old(calls)|)]
      ensures more == (if buf != [] then DataNotes() else []) + (if !ValidPtr(producer) then EndNotes() else [])
      ensures calls == old(calls) + more
      ensures calls == old(calls) + (if buf != [] then DataNotes() else [])
                       + (if !ValidPtr(producer) then EndNotes() else [])
    {
      hide EndsLast, Addressed, EndSent, EndsTrue, NoEnds, CountConsumerAborted, InOrder, Hearing, KnownJobs;
      NewAttachment(calls, attached, c);
      HearAttach(calls, fired, attached, starts, delivered, heard, c);
      KnownAttached(live, attached, producer, nextJob, c);
      starts := starts + [Start(fired, |calls|)];
      consumer := Some(c);
      attached := attached + [c];
      NotifyNewConsumer();
      more := (if buf != [] then DataNotes() else []) + (if !ValidPtr(producer) then EndNotes() else []);
      assert calls == old(calls) + more;
    }

    method NotifyNewConsumer()
      requires Stream() && Jobs() && consumer.Some? && attached != [] && attached[|attached| - 1] == consumer.value
      requires EndsLast(calls) && Addressed(calls, attached) && !EndSent(calls, |attached| - 1) && fired <= |calls|
      requires EndsTrue(calls, Whole()) && (ValidPtr(producer) ==> NoEnds(calls)) && InOrder(delivered, fired)
      requires CountConsumerAborted(calls) == (if abortedConsumption then 1 else 0)
      requires Hearing(calls, fired, attached, starts, delivered, heard)
      modifies this`calls
      ensures Valid()
      ensures calls == old(calls) + (if buf != [] then DataNotes() else [])
                       + (if !ValidPtr(producer) then EndNotes() else [])
    {
      hide EndsLast, Addressed, EndSent, EndsTrue, NoEnds, CountConsumerAborted, InOrder, Hearing;
      if buf != [] && ValidPtr(consumer) {
        LogNote(calls, attached, Note(Data, consumer, |attached| - 1));
        HearNote(calls, fired, attached, starts, delivered, heard, Note(Data, consumer, |attached| - 1));
        LogTruth(calls, Note(Data, consumer, |attached| - 1), Whole());
        calls := calls + [Note(Data, consumer, |attached| - 1)];
      }
      if !ValidPtr(producer) {
        ScheduleBodyEndNotification();
      }
    }

    method ClearConsumer()
      requires Valid()
      modifies this`consumer, this`calls, this`abortedConsumption, this`live, this`sinks, this`attached, this`starts,
               this`nextJob
      ensures Valid() && Grown()
      ensures old(consumer).None? ==> calls == old(calls) && consumer.None? && abortedConsumption == old(abortedConsumption)
      ensures old(consumer).Some? && getSize == 0 ==>
                && calls == old(calls) && consumer.None? && abortedConsumption == old(abortedConsumption)
                && live == old(live) && sinks == old(sinks) && attached == old(attached) && nextJob == old(nextJob)
                && starts == old(starts)
      ensures consumer.None? || (consumer.Some? && consumer.value in sinks && consumer.value !in old(live))
      ensures old(consumer).Some? && getSize > 0 ==>
                && abortedConsumption == (old(abortedConsumption) || !old(Exhausted()))
                && (if abortedConsumption == old(abortedConsumption) then calls == old(calls)
                    else |calls| > |old(calls)|
                         && calls[..|old(calls)| + 1] == old(calls) + [Note(ConsumerAborted, producer, 0)])
    {
      hide EndsLast, Addressed, EndSent, EndsTrue, NoEnds, CountConsumerAborted, InOrder, Hearing;
      if consumer.Some? {
        consumer := None;
        if getSize > 0 {
          ExpectNoConsumption();
        }
      }
    }

    method TellConsumerAborted()
      requires Valid() && !abortedConsumption
      modifies this`calls, this`abortedConsumption
      ensures Valid() && abortedConsumption && calls == old(calls) + [Note(ConsumerAborted, producer, 0)]
    {
      hide EndsLast, Addressed, EndSent, EndsTrue, NoEnds, CountConsumerAborted, InOrder, Hearing, Stream, Jobs;
      LogNote(calls, attached, Note(ConsumerAborted, producer, 0));
      HearNote(calls, fired, attached, starts, delivered, heard, Note(ConsumerAborted, producer, 0));
      LogTruth(calls, Note(ConsumerAborted, producer, 0), Whole());
      calls := calls + [Note(ConsumerAborted, producer, 0)];
      abortedConsumption := true;
    }

    /** There will be no more consumers; the producer learns that, once. */
    method ExpectNoConsumption()
      requires Valid()
      modifies this`consumer, this`calls, this`abortedConsumption, this`live, this`sinks, this`attached, this`starts,
               this`nextJob
      ensures Valid() && Grown()
      ensures if !old(abortedConsumption) && !old(Exhausted()) && !old(ValidPtr(consumer))
              then abortedConsumption && |calls| > |old(calls)|
                   && calls[..|old(calls)| + 1] == old(calls) + [Note(ConsumerAborted, producer, 0)]
              else abortedConsumption == old(abortedConsumption) && calls == old(calls) && consumer == old(consumer)
      ensures consumer == old(consumer) || (consumer.Some? && consumer.value in sinks && consumer.value !in old(live))
    {
      hide Valid, Exhausted;
      if !abortedConsumption && !Exhausted() && !ValidPtr(consumer) {
        TellConsumerAborted();
        StartAutoConsumptionIfNeeded();
      }
    }

    method EnableAutoConsumption()
      requires Valid()
      modifies this`mustAutoConsume, this`consumer, this`live, this`sinks, this`attached, this`starts, this`nextJob,
               this`calls
      ensures Valid() && Grown() && mustAutoConsume
      ensures ValidPtr(producer) && buf != [] ==> ValidPtr(consumer)
    {
      hide Log, Stream, Jobs;
      mustAutoConsume := true;
      StartAutoConsumptionIfNeeded();
    }

    /** Moves content to a buffer with the given space. */
    method GetMoreData(space: nat) returns (data: seq<byte>)
      requires Valid() && !isCheckedOut
      modifies this`buf, this`getSize, this`consumed, this`calls
      ensures Valid() && |data| == Min(|old(buf)|, space)
      ensures consumed == old(consumed) + data && data == produced[|old(consumed)|..][..|data|]
      ensures calls == old(calls) + (if old(buf) != [] then SpaceNotes() else [])
    {
      if buf == [] {
        return [];
      }
      var size := Min(|buf|, space);
      data := buf[..size];
      assert produced[getSize..] == buf;
      buf := buf[size..];
      PostConsume(size, data);
    }

    method Consume(size: nat)
      requires Valid() && !isCheckedOut && size <= |buf|
      modifies this`buf, this`getSize, this`consumed, this`calls
      ensures Valid() && consumed == old(consumed) + old(buf)[..size] && buf == old(buf)[size..]
      ensures calls == old(calls) + SpaceNotes()
    {
      ghost var data := buf[..size];
      assert buf == data + buf[size..];
      buf := buf[size..];
      PostConsume(size, data);
    }

    function SpaceNotes(): seq<Note>
      reads this`bodySize, this`putSize, this`producer
    {
      if MayNeedMoreData() then [Note(Space, producer, 0)] else []
    }

    method PostConsume(size: nat, ghost data: seq<byte>)
      requires Log() && Jobs() && !isCheckedOut && size == |data| && getSize == |consumed| && putSize == |produced|
      requires consumed + data + buf == produced && |buf| < MAX_CAPACITY
      requires -1 <= bodySize && (BodySizeKnown() ==> putSize <= bodySize)
      modifies this`getSize, this`consumed, this`calls
      ensures Valid() && consumed == old(consumed) + data && calls == old(calls) + SpaceNotes()
    {
      hide EndsLast, Addressed, EndSent, EndsTrue, NoEnds, CountConsumerAborted, InOrder, Hearing;
      getSize := getSize + size;
      consumed := consumed + data;
      if MayNeedMoreData() {
        LogNote(calls, attached, Note(Space, producer, 0));
        HearNote(calls, fired, attached, starts, delivered, heard, Note(Space, producer, 0));
        LogTruth(calls, Note(Space, producer, 0), Whole());
        calls := calls + [Note(Space, producer, 0)];
      }
    }

    // --- Checkout of the raw buffer ---

    method CheckOut() returns (offset: nat)
      requires Valid() && !isCheckedOut
      modifies this`isCheckedOut, this`checkedOutSize, this`lent
      ensures Valid() && isCheckedOut && lent == buf && offset == |consumed|
    {
      hide Log, Jobs;
      isCheckedOut, checkedOutSize, lent, offset := true, |buf|, buf, getSize;
    }

    /** The holder writes to the raw buffer. */
    method WriteRaw(content: seq<byte>)
      requires Valid() && isCheckedOut && AppendedOrConsumed(lent, content) && |content| < MAX_CAPACITY
      modifies this`buf
      ensures Valid() && buf == content
    {
      buf := content;
    }

    /** Returns the buffer; what was appended must fit the body. */
    method CheckIn()
      requires Valid() && isCheckedOut
      requires |buf| > checkedOutSize ==> NoEnds(calls) && (BodySizeKnown() ==> putSize + |buf| - checkedOutSize <= bodySize)
      modifies this
      ensures Valid() && Grown() && !isCheckedOut && buf == old(buf)
      ensures produced == old(produced) + (if |buf| > |old(lent)| then buf[|old(lent)|..] else [])
      ensures consumed == old(consumed) + (if |buf| < |old(lent)| then old(lent)[..|old(lent)| - |buf|] else [])
    {
      hide Log, Jobs, NoEnds, Appended;
      assert |buf| == |lent| ==> buf == lent;
      isCheckedOut := false;
      if checkedOutSize > |buf| {
        PostConsume(checkedOutSize - |buf|, lent[..|lent| - |buf|]);
      } else if checkedOutSize < |buf| {
        PostAppend(|buf| - checkedOutSize, buf[|lent|..]);
      }
    }

    // --- The call queue ---

    /** A call reaches its job only if the job exists and is still the producer
      * or the consumer that the pipe has. */
    predicate CanDial(n: Note)
      reads this`live, this`consumer, this`producer
    {
      ValidPtr(n.to) && (if ToConsumer(n) then consumer == n.to else producer == n.to)
    }

    /** Fires the next scheduled call. A BodySink reacts at once: it drops data
      * and detaches at the end; other jobs react by calling the pipe later. */
    method Fire() returns (dialed: bool)
      requires Valid() && !isCheckedOut && fired < |calls|
      modifies this
      ensures Valid() && Grown() && fired == old(fired) + 1 && dialed == old(CanDial(calls[fired]))
      ensures delivered == old(delivered) + (if dialed then [old(fired)] else [])
      ensures heard == old(heard) + (if dialed then [old(Current())] else [])
      ensures produced == old(produced) && old(consumed) <= consumed && old(calls) <= calls
      ensures dialed && old(calls[fired].to.value in sinks && calls[fired].kind == Data) ==> buf == [] && consumed == produced
      ensures dialed && old(calls[fired].to.value in sinks && IsEnd(calls[fired])) ==> consumer != old(consumer)
      ensures !(dialed && old(calls[fired].to.value in sinks && ToConsumer(calls[fired]))) ==>
                && consumed == old(consumed) && consumer == old(consumer) && calls == old(calls)
                && live == old(live) && sinks == old(sinks) && attached == old(attached) && !isCheckedOut
                && starts == old(starts)
    {
      hide Valid;
      StreamIntact(this);
      var n := calls[fired];
      dialed := CanDial(n);
      Dial(dialed);
      if dialed && n.to.value in sinks && ToConsumer(n) {
        if n.kind == Data {
          Consume(|buf|);
        } else {
          ClearConsumer();
        }
      }
    }

    /** The number of the current attachment, if there is one. */
    ghost function Current(): nat
      reads this`attached
    {
      if attached == [] then 0 else |attached| - 1
    }

    method Dial(dialed: bool)
      requires Valid() && fired < |calls| && (dialed ==> CanDial(calls[fired]))
      modifies this`delivered, this`fired, this`heard
      ensures Valid() && fired == old(fired) + 1
      ensures delivered == old(delivered) + (if dialed then [old(fired)] else [])
      ensures heard == old(heard) + (if dialed then [Current()] else [])
    {
      hide EndsLast, Addressed, EndSent, EndsTrue, NoEnds, CountConsumerAborted, Hearing;
      if dialed {
        HearCall(calls, fired, attached, starts, delivered, heard, Current());
        delivered := delivered + [fired];
        heard := heard + [Current()];
      } else {
        HearNothing(calls, fired, attached, starts, delivered, heard);
      }
      fired := fired + 1;
    }

    /** A job disappears without telling the pipe. */
    method JobGone(j: nat)
      requires Valid()
      modifies this`live
      ensures Valid() && live == old(live) - {j}
    {
      hide EndsLast, Addressed, EndSent, EndsTrue, NoEnds, CountConsumerAborted, InOrder, Hearing;
      live := live - {j};
    }

    /** A new job that may become a consumer. */
    method NewJob() returns (j: nat)
      requires Valid()
      modifies this`live, this`nextJob
      ensures Valid() && j !in old(live) && j !in attached && live == old(live) + {j} && nextJob == j + 1
    {
      hide EndsLast, Addressed, EndSent, EndsTrue, NoEnds, CountConsumerAborted, InOrder, Hearing, KnownJobs;
      j := nextJob;
      assert consumer.Some? ==> consumer.value in attached;
      KnownNew(live, attached, producer, nextJob);
      live := live + {j};
      nextJob := nextJob + 1;
    }

    // --- Runs ---

    /** One use of the pipe. What its caller must not do is left undone. */
    method Step(e: Event)
      requires Valid()
      modifies this
      ensures Valid() && Grown() && old(produced) <= produced && old(consumed) <= consumed
    {
      hide Valid;
      match e {
        case SetSize(_) => Produce(e);
        case ExpectEnd(_) => Produce(e);
        case Put(_) => Produce(e);
        case StopProducing(_) => Produce(e);
        case Return(content) => GiveBack(content);
        case FireNext => FireIfAny();
        case Gone(j) => JobGone(j);
        case Born => var _ := NewJob();
        case _ => TakePart(e);
      }
    }

    /** A use by the producer. */
    method Produce(e: Event)
      requires Valid() && (e.SetSize? || e.ExpectEnd? || e.Put? || e.StopProducing?)
      modifies this
      ensures Valid() && Grown() && old(produced) <= produced && old(consumed) <= consumed
    {
      hide Log, Jobs, Appended;
      match e {
        case SetSize(n) =>
          if !BodySizeKnown() && putSize <= n && !ValidPtr(consumer) && (NoEnds(calls) || putSize < n) {
            SetBodySize(n);
          }
        case ExpectEnd(n) =>
          if (BodySizeKnown() ==> bodySize == putSize + n) && (NoEnds(calls) || BodySizeKnown() || n > 0) {
            ExpectProductionEndAfter(n);
          }
        case Put(data) =>
          if !isCheckedOut && (NoEnds(calls) || Accepts(|data|) == 0) { var _ := PutMoreData(data); }
        case StopProducing(atEof) =>
          if (producer.None? || NoEnds(calls)) && (producer.None? || atEof || !Whole()) { ClearProducer(atEof); }
      }
    }

    /** A use by consumers, or of the raw buffer. */
    method TakePart(e: Event)
      requires Valid()
      requires e.Attach? || e.StopConsuming? || e.NoMoreConsumers? || e.AutoConsume? || e.Get? || e.Drop? || e.Lend?
      modifies this
      ensures Valid() && Grown() && old(produced) <= produced && old(consumed) <= consumed
    {
      hide Valid, NoneFor, NoEndFor, OwnOnly, FoundNothing, FoundNoEnd;
      match e {
        case Attach(c) =>
          if !ValidPtr(consumer) && c < nextJob && (if getSize > 0 then mustAutoConsume else !abortedConsumption) {
            var _ := SetConsumerIfNotLate(c);
          }
        case StopConsuming => ClearConsumer();
        case NoMoreConsumers => ExpectNoConsumption();
        case AutoConsume => EnableAutoConsumption();
        case Get(space) => if !isCheckedOut { var _ := GetMoreData(space); }
        case Drop(n) => if !isCheckedOut && n <= |buf| { Consume(n); }
        case Lend => if !isCheckedOut { var _ := CheckOut(); }
      }
    }

    method FireIfAny()
      requires Valid()
      modifies this
      ensures Valid() && Grown() && old(produced) <= produced && old(consumed) <= consumed
    {
      hide Valid;
      if !isCheckedOut && fired < |calls| { var _ := Fire(); }
    }

    method GiveBack(content: seq<byte>)
      requires Valid()
      modifies this
      ensures Valid() && Grown() && old(produced) <= produced && old(consumed) <= consumed
    {
      hide Log, Jobs;
      if isCheckedOut && checkedOutSize == |buf| && AppendedOrConsumed(buf, content) && |content| < MAX_CAPACITY
         && (|content| > |buf| ==>
               NoEnds(calls) && (BodySizeKnown() ==> putSize + |content| - checkedOutSize <= bodySize)) {
        assert buf == lent;
        WriteRaw(content);
        CheckIn();
      }
    }

    /** Every run keeps the invariant, and the streams only grow. */
    method Run(events: seq<Event>)
      requires Valid()
      modifies this
      ensures Valid() && Grown() && old(produced) <= produced && old(consumed) <= consumed
    {
      hide Valid;
      for i := 0 to |events|
        invariant Valid() && Grown() && old(produced) <= produced && old(consumed) <= consumed
      {
        Step(events[i]);
      }
    }
  }

  // --- What the invariant, which every run keeps, means ---

  /** Bytes come out in the order they went in, none lost, none twice. */
  lemma StreamIntact(p: BodyPipe)
    requires p.Valid() && !p.isCheckedOut
    ensures p.consumed + p.buf == p.produced
    ensures p.getSize == |p.consumed| && p.putSize == |p.produced| && p.getSize + |p.buf| == p.putSize
    ensures p.BodySizeKnown() ==> p.putSize <= p.bodySize
  {
  }

  /** Each attachment is sent at most one end notification, and no data after it. */
  lemma EndIsLast(p: BodyPipe, i: nat, k: nat)
    requires p.Valid() && i < |p.calls| && k < |p.calls| && i != k
    requires IsEnd(p.calls[i]) && ToConsumer(p.calls[k]) && p.calls[i].att == p.calls[k].att
    ensures k < i && p.calls[k].kind == Data
  {
  }

  /** A consumer that is valid and attached when production is over was told
    * so, exactly once, and was told the truth. */
  lemma EndSentOnce(p: BodyPipe) returns (i: nat)
    requires p.Valid() && p.producer.None? && p.ValidPtr(p.consumer)
    ensures i < |p.calls| && p.calls[i].to == p.consumer
    ensures p.calls[i].kind == if p.Whole() then Ended else Aborted
    ensures forall k :: 0 <= k < |p.calls| && IsEnd(p.calls[k]) && p.calls[k].att == |p.attached| - 1 ==> k == i
  {
    i :| 0 <= i < |p.calls| && IsEnd(p.calls[i]) && p.calls[i].att == |p.attached| - 1;
    forall k | 0 <= k < |p.calls| && IsEnd(p.calls[k]) && p.calls[k].att == |p.attached| - 1
      ensures k == i
    {
      assert EndsLast(p.calls);
    }
  }

  lemma {:induction false} CountedTwice(calls: seq<Note>, i: nat, k: nat)
    requires i < k < |calls| && calls[i].kind == ConsumerAborted && calls[k].kind == ConsumerAborted
    ensures CountConsumerAborted(calls) >= 2
  {
    var front := calls[..|calls| - 1];
    if k < |front| {
      CountedTwice(front, i, k);
    } else {
      CountedOnce(front, i);
    }
  }

  lemma {:induction false} CountedOnce(calls: seq<Note>, i: nat)
    requires i < |calls| && calls[i].kind == ConsumerAborted
    ensures CountConsumerAborted(calls) >= 1
  {
    if i < |calls| - 1 { CountedOnce(calls[..|calls| - 1], i); }
  }

  /** noteBodyConsumerAborted is scheduled at most once in the life of a pipe. */
  lemma ConsumerAbortedOnce(p: BodyPipe, i: nat, k: nat)
    requires p.Valid() && i < |p.calls| && k < |p.calls|
    requires p.calls[i].kind == ConsumerAborted && p.calls[k].kind == ConsumerAborted
    ensures i == k
  {
    if i != k { CountedTwice(p.calls, if i < k then i else k, if i < k then k else i); }
  }

  /** A job that attached once receives at most one end notification, and
    * nothing after it. */
  lemma ConsumerHearsEndLast(p: BodyPipe, i: nat, k: nat)
    requires p.Valid() && i < k < |p.delivered|
    requires IsEnd(p.calls[p.delivered[i]]) && ToConsumer(p.calls[p.delivered[k]])
    requires forall a, b :: 0 <= a < b < |p.attached| && p.attached[a] == p.attached[b] ==>
                              Some(p.attached[a]) != p.calls[p.delivered[i]].to
    ensures p.calls[p.delivered[i]].to != p.calls[p.delivered[k]].to
  {
    hide BodyPipe.Stream, BodyPipe.Jobs, Hearing, CountConsumerAborted, EndsTrue;
    var m, n := p.calls[p.delivered[i]], p.calls[p.delivered[k]];
    assert m.att != n.att;
    assert m.to == Some(p.attached[m.att]) && n.to == Some(p.attached[n.att]);
  }

  /** In every run, an attachment that found no earlier call to its job still to
    * fire hears only its own notifications. */
  lemma AttachmentHearsItsOwn(p: BodyPipe, i: nat)
    requires p.Valid() && i < |p.delivered| && ToConsumer(p.calls[p.delivered[i]]) && p.FoundNothing(p.heard[i])
    ensures p.calls[p.delivered[i]].att == p.heard[i]
  {
    hide BodyPipe.Stream, BodyPipe.Jobs, CountConsumerAborted, EndsTrue, Addressed, Latest, EndsLast, InOrder;
    var n, start := p.delivered[i], p.starts[p.heard[i]];
    assert HeardBy(p.calls, p.attached, p.starts, n, p.heard[i]);
    if n < start.logged {
      FoundNone(p.calls, start, p.attached[p.heard[i]], n);
    }
  }

  lemma FoundNone(calls: seq<Note>, start: Start, c: nat, n: nat)
    requires start.fired <= n < start.logged <= |calls| && NoneFor(calls[..start.logged], start.fired, c)
    requires ToConsumer(calls[n])
    ensures calls[n].to != Some(c)
  {
    assert calls[..start.logged][n] == calls[n];
  }

  /** Any other attachment of an ordinary job can hear a notification that is not
    * its own: all it takes is to let the scheduled calls fire. */
  method HearsAnothers(p: BodyPipe, k: nat)
    requires p.Valid() && !p.isCheckedOut && p.ValidPtr(p.consumer) && p.consumer.value !in p.sinks
    requires p.fired <= k < |p.calls| && ToConsumer(p.calls[k]) && p.calls[k].to == p.consumer
    requires p.attached != [] && p.calls[k].att != |p.attached| - 1
    modifies p
    ensures p.Valid() && p.calls == old(p.calls) && p.attached == old(p.attached)
    ensures p.delivered != [] && p.heard != [] && p.delivered[|p.delivered| - 1] == k
    ensures p.heard[|p.heard| - 1] == |p.attached| - 1 != p.calls[k].att
  {
    hide BodyPipe.Valid;
    while p.fired < k
      invariant p.Valid() && !p.isCheckedOut && p.fired <= k
      invariant p.calls == old(p.calls) && p.attached == old(p.attached) && p.consumer == old(p.consumer)
      invariant p.live == old(p.live) && p.sinks == old(p.sinks)
    {
      var _ := p.Fire();
    }
    var _ := p.Fire();
  }

  /** In every run, an attachment that found no end to its job still to fire hears
    * at most one end, and nothing after it. */
  lemma AttachmentHearsEndLast(p: BodyPipe, i: nat, k: nat)
    requires p.Valid() && i < k < |p.delivered| && p.heard[i] == p.heard[k] && p.FoundNoEnd(p.heard[i])
    requires ToConsumer(p.calls[p.delivered[i]]) && ToConsumer(p.calls[p.delivered[k]])
    ensures !IsEnd(p.calls[p.delivered[i]])
  {
    hide BodyPipe.Stream, BodyPipe.Jobs, CountConsumerAborted, EndsTrue, Addressed, Latest;
    var m, n, start := p.delivered[i], p.delivered[k], p.starts[p.heard[i]];
    assert m < n;
    assert HeardBy(p.calls, p.attached, p.starts, m, p.heard[i]);
    assert HeardBy(p.calls, p.attached, p.starts, n, p.heard[k]);
    if m < start.logged {
      assert p.calls[..start.logged][m] == p.calls[m];
    }
  }

  /** The attachment heard two ends. */
  ghost predicate HeardTwice(calls: seq<Note>, delivered: seq<nat>, heard: seq<nat>, att: nat) {
    exists i: nat, k: nat :: i < k < |delivered| && HeardEnd(calls, delivered, heard, att, i)
                   && HeardEnd(calls, delivered, heard, att, k)
  }

  ghost predicate HeardEnd(calls: seq<Note>, delivered: seq<nat>, heard: seq<nat>, att: nat, i: nat) {
    i < |delivered| && i < |heard| && heard[i] == att && delivered[i] < |calls| && IsEnd(calls[delivered[i]])
  }

  /** The attachment heard something after an end. */
  ghost predicate HeardAfterEnd(calls: seq<Note>, delivered: seq<nat>, heard: seq<nat>, att: nat) {
    exists i: nat, k: nat :: i < k < |delivered| && HeardEnd(calls, delivered, heard, att, i)
                             && HeardCall(calls, delivered, heard, att, k)
  }

  ghost predicate HeardCall(calls: seq<Note>, delivered: seq<nat>, heard: seq<nat>, att: nat, i: nat) {
    i < |delivered| && i < |heard| && heard[i] == att && delivered[i] < |calls| && ToConsumer(calls[delivered[i]])
  }

  lemma TwiceIsAfterEnd(calls: seq<Note>, delivered: seq<nat>, heard: seq<nat>, att: nat)
    requires HeardTwice(calls, delivered, heard, att)
    ensures HeardAfterEnd(calls, delivered, heard, att)
  {
    var i: nat, k: nat :| i < k < |delivered| && HeardEnd(calls, delivered, heard, att, i)
                          && HeardEnd(calls, delivered, heard, att, k);
    assert HeardCall(calls, delivered, heard, att, k);
  }

  /** Every end to the job that fired was heard by the attachment. */
  ghost predicate Reached(calls: seq<Note>, from: nat, fired: nat, c: nat, delivered: seq<nat>, heard: seq<nat>,
                          att: nat) {
    forall k: nat :: from <= k < fired && k < |calls| && IsEnd(calls[k]) && calls[k].to == Some(c) ==>
                  EndReached(calls, k, delivered, heard, att)
  }

  ghost predicate EndReached(calls: seq<Note>, k: nat, delivered: seq<nat>, heard: seq<nat>, att: nat) {
    exists i: nat :: HeardEnd(calls, delivered, heard, att, i) && delivered[i] == k
  }

  lemma ReachedNext(calls: seq<Note>, from: nat, fired: nat, c: nat, delivered: seq<nat>, heard: seq<nat>, att: nat,
                    dialed: bool)
    requires Reached(calls, from, fired, c, delivered, heard, att) && |heard| == |delivered| && fired < |calls|
    requires IsEnd(calls[fired]) && calls[fired].to == Some(c) ==> dialed
    ensures Reached(calls, from, fired + 1, c, delivered + (if dialed then [fired] else []),
                    heard + (if dialed then [att] else []), att)
  {
    var delivered', heard' := delivered + (if dialed then [fired] else []), heard + (if dialed then [att] else []);
    forall k | from <= k < fired + 1 && k < |calls| && IsEnd(calls[k]) && calls[k].to == Some(c)
      ensures EndReached(calls, k, delivered', heard', att)
    {
      if k < fired {
        var i: nat :| HeardEnd(calls, delivered, heard, att, i) && delivered[i] == k;
        assert HeardEnd(calls, delivered', heard', att, i) && delivered'[i] == k;
      } else {
        assert HeardEnd(calls, delivered', heard', att, |delivered|) && delivered'[|delivered|] == k;
      }
    }
  }

  lemma TwoReached(calls: seq<Note>, from: nat, fired: nat, c: nat, delivered: seq<nat>, heard: seq<nat>, att: nat,
                   m: nat, n: nat)
    requires Reached(calls, from, fired, c, delivered, heard, att)
    requires from <= m < n < fired <= |calls| && IsEnd(calls[m]) && IsEnd(calls[n])
    requires calls[m].to == Some(c) && calls[n].to == Some(c)
    ensures HeardTwice(calls, delivered, heard, att)
  {
    assert EndReached(calls, m, delivered, heard, att) && EndReached(calls, n, delivered, heard, att);
    var i: nat :| HeardEnd(calls, delivered, heard, att, i) && delivered[i] == m;
    var k: nat :| HeardEnd(calls, delivered, heard, att, k) && delivered[k] == n;
    if k < i {
      assert HeardEnd(calls, delivered, heard, att, k);
    }
  }

  lemma NothingHeardAfterEnd(p: BodyPipe, att: nat)
    requires p.Valid() && p.FoundNoEnd(att)
    ensures !HeardAfterEnd(p.calls, p.delivered, p.heard, att)
    ensures !HeardTwice(p.calls, p.delivered, p.heard, att)
  {
    hide BodyPipe.Valid, BodyPipe.FoundNoEnd;
    if HeardAfterEnd(p.calls, p.delivered, p.heard, att) {
      var i: nat, k: nat :| i < k < |p.delivered| && HeardEnd(p.calls, p.delivered, p.heard, att, i)
                            && HeardCall(p.calls, p.delivered, p.heard, att, k);
      AttachmentHearsEndLast(p, i, k);
    }
    if HeardTwice(p.calls, p.delivered, p.heard, att) {
      TwiceIsAfterEnd(p.calls, p.delivered, p.heard, att);
    }
  }

  /** A job attaches when no end to it is still to fire. Whatever happens then, in
    * any run, this attachment hears nothing after an end. */
  method NeverToldTwice(p: BodyPipe, c: nat, events: seq<Event>)
    requires p.Valid() && !p.ValidPtr(p.consumer) && c < p.nextJob && p.getSize == 0 && !p.abortedConsumption
    requires NoEndFor(p.calls, p.fired, c)
    modifies p
    ensures p.Valid() && old(p.attached) + [c] <= p.attached
    ensures !HeardAfterEnd(p.calls, p.delivered, p.heard, |old(p.attached)|)
    ensures !HeardTwice(p.calls, p.delivered, p.heard, |old(p.attached)|)
  {
    hide BodyPipe.Valid, NoneFor, NoEndFor, OwnOnly, HeardTwice, HeardAfterEnd, BodyPipe.FoundNothing;
    var ok := p.SetConsumerIfNotLate(c);
    ghost var calls, att := p.calls, |old(p.attached)|;
    assert p.FoundNoEnd(att);
    p.Run(events);
    assert p.calls[..p.starts[att].logged] == calls[..p.starts[att].logged];
    NothingHeardAfterEnd(p, att);
  }

  /** The calls still to fire find the consumer, an ordinary job, attached. */
  method FireAll(p: BodyPipe)
    requires p.Valid() && !p.isCheckedOut && p.ValidPtr(p.consumer) && p.consumer.value !in p.sinks && p.attached != []
    modifies p
    ensures p.Valid() && p.calls == old(p.calls) && p.attached == old(p.attached) && p.consumer == old(p.consumer)
    ensures p.starts == old(p.starts) && p.fired == |p.calls|
    ensures Reached(p.calls, old(p.fired), p.fired, p.consumer.value, p.delivered, p.heard, |p.attached| - 1)
  {
    hide BodyPipe.Valid, Reached;
    Sizes(p);
    ghost var c, att := p.consumer.value, |p.attached| - 1;
    NoneReached(p, c, att);
    while p.fired < |p.calls|
      invariant p.Valid() && !p.isCheckedOut && p.fired <= |p.calls| && |p.heard| == |p.delivered|
      invariant p.calls == old(p.calls) && p.attached == old(p.attached) && p.consumer == old(p.consumer)
      invariant p.starts == old(p.starts) && p.live == old(p.live) && p.sinks == old(p.sinks)
      invariant Reached(p.calls, old(p.fired), p.fired, c, p.delivered, p.heard, att)
    {
      ghost var fired, delivered, heard := p.fired, p.delivered, p.heard;
      var dialed := p.Fire();
      ReachedNext(p.calls, old(p.fired), fired, c, delivered, heard, att, dialed);
    }
  }

  lemma NoneReached(p: BodyPipe, c: nat, att: nat)
    ensures Reached(p.calls, p.fired, p.fired, c, p.delivered, p.heard, att)
  {
  }

  lemma Sizes(p: BodyPipe)
    requires p.Valid()
    ensures p.fired <= |p.calls| && |p.heard| == |p.delivered|
    ensures p.ValidPtr(p.producer) ==> NoEnds(p.calls)
    ensures forall j :: j in p.live ==> j < p.nextJob
  {
    hide BodyPipe.Stream, EndsLast, Addressed, EndSent, EndsTrue, NoEnds, CountConsumerAborted, InOrder;
  }

  /** If an ordinary job attaches and all calls scheduled by then fire, it is told
    * twice that production is over if and only if a call telling it so was still to
    * fire when it attached. */
  method ToldTwiceExactly(p: BodyPipe, c: nat)
    requires p.Valid() && !p.isCheckedOut && !p.ValidPtr(p.consumer) && c in p.live && c !in p.sinks
    requires p.getSize == 0 && !p.abortedConsumption
    modifies p
    ensures p.Valid() && p.consumer == Some(c) && p.attached == old(p.attached) + [c] && p.fired == |p.calls|
    ensures HeardTwice(p.calls, p.delivered, p.heard, |p.attached| - 1) <==> !NoEndFor(old(p.calls), old(p.fired), c)
    ensures HeardAfterEnd(p.calls, p.delivered, p.heard, |p.attached| - 1)
            <==> !NoEndFor(old(p.calls), old(p.fired), c)
  {
    hide BodyPipe.Valid, NoneFor, OwnOnly, HeardTwice, HeardAfterEnd, Reached, BodyPipe.FoundNothing;
    Sizes(p);
    var ok := p.SetConsumerIfNotLate(c);
    ghost var last := |p.calls| - 1;
    assert !NoEndFor(old(p.calls), old(p.fired), c) ==>
        last >= |old(p.calls)| && IsEnd(p.calls[last]) && p.calls[last].to == Some(c);
    FireAll(p);
    if NoEndFor(old(p.calls), old(p.fired), c) {
      NothingHeardAfterEnd(p, |p.attached| - 1);
    } else {
      ghost var m :| old(p.fired) <= m < |old(p.calls)| && IsEnd(old(p.calls)[m]) && old(p.calls)[m].to == Some(c);
      TwoReached(p.calls, old(p.fired), p.fired, c, p.delivered, p.heard, |p.attached| - 1, m, last);
      TwiceIsAfterEnd(p.calls, p.delivered, p.heard, |p.attached| - 1);
    }
  }

  /** A job that attaches again while a call to its first attachment is still to
    * fire is told twice that production was aborted. */
  method ToldTwice() returns (p: BodyPipe, c: nat)
    ensures p.Valid() && p.delivered == [0, 1] && p.heard == [1, 1] && p.attached == [c, c]
    ensures p.starts == [Start(0, 0), Start(0, 1)]
    ensures p.calls == [Note(Aborted, Some(c), 0), Note(Aborted, Some(c), 1)]
  {
    hide BodyPipe.Valid;
    p, c := AttachedTwice();
    var dialed := p.Fire();
    dialed := p.Fire();
  }

  method AttachedTwice() returns (p: BodyPipe, c: nat)
    ensures fresh(p) && p.Valid() && p.delivered == [] && p.fired == 0 && p.attached == [c, c]
    ensures p.consumer == Some(c) && c in p.live && p.sinks == {} && !p.isCheckedOut
    ensures p.heard == [] && p.starts == [Start(0, 0), Start(0, 1)]
    ensures p.calls == [Note(Aborted, Some(c), 0), Note(Aborted, Some(c), 1)]
  {
    hide BodyPipe.Valid;
    p, c := AttachedOnce();
    AttachToAbandoned(p, c);
  }

  /** A job attaches to a pipe that was abandoned by its producer, and leaves. */
  method AttachedOnce() returns (p: BodyPipe, c: nat)
    ensures fresh(p) && p.Valid() && p.delivered == [] && p.fired == 0 && p.attached == [c] && p.heard == []
    ensures p.consumer.None? && p.producer.None? && p.bodySize == -1 && p.buf == [] && c in p.live && c < p.nextJob
    ensures p.getSize == 0 && !p.abortedConsumption && p.sinks == {} && !p.isCheckedOut && p.starts == [Start(0, 0)]
    ensures p.calls == [Note(Aborted, Some(c), 0)]
  {
    hide BodyPipe.Valid;
    p, c := AbandonedPipe();
    AttachToAbandoned(p, c);
    p.ClearConsumer();
  }

  /** A pipe that its producer abandoned at once, and a job that may attach to it. */
  method AbandonedPipe() returns (p: BodyPipe, c: nat)
    ensures fresh(p) && p.Valid() && p.delivered == [] && p.fired == 0 && p.attached == [] && p.heard == []
    ensures p.consumer.None? && p.producer.None? && p.bodySize == -1 && p.buf == [] && c in p.live && c < p.nextJob
    ensures p.getSize == 0 && !p.abortedConsumption && p.sinks == {} && !p.isCheckedOut && p.starts == []
    ensures p.calls == []
  {
    hide BodyPipe.Valid;
    p := new BodyPipe(0);
    c := p.NewJob();
    p.ClearProducer(false);
  }

  method AttachToAbandoned(p: BodyPipe, c: nat)
    requires p.Valid() && p.consumer.None? && p.producer.None? && p.bodySize == -1 && p.buf == []
    requires p.getSize == 0 && !p.abortedConsumption && c in p.live && c < p.nextJob
    modifies p`consumer, p`attached, p`starts, p`calls
    ensures p.Valid() && p.consumer == Some(c) && p.attached == old(p.attached) + [c]
    ensures p.starts == old(p.starts) + [Start(p.fired, |old(p.calls)|)]
    ensures p.calls == old(p.calls) + [Note(Aborted, Some(c), |old(p.attached)|)]
  {
    hide BodyPipe.Valid;
    var ok := p.SetConsumerIfNotLate(c);
  }

  /** A job that attaches again while only data for its first attachment is still to
    * fire hears that, but no second end. */
  method ToldOnce() returns (p: BodyPipe, c: nat)
    ensures p.Valid() && p.delivered == [0, 1, 2] && p.heard == [1, 1, 1] && p.attached == [c, c]
    ensures p.calls == [Note(Data, Some(c), 0), Note(Data, Some(c), 1), Note(Ended, Some(c), 1)]
    ensures !p.FoundNothing(1) && p.FoundNoEnd(1)
  {
    hide BodyPipe.Valid, BodyPipe.FoundNothing, BodyPipe.FoundNoEnd;
    p, c := DataAndEnd();
    var dialed := p.Fire();
    dialed := p.Fire();
    dialed := p.Fire();
    FoundData(p, c);
  }

  lemma FoundData(p: BodyPipe, c: nat)
    requires p.starts == [Start(0, 0), Start(0, 1)] && p.attached == [c, c] && |p.calls| > 0
    requires p.calls[0] == Note(Data, Some(c), 0)
    ensures !p.FoundNothing(1) && p.FoundNoEnd(1)
  {
    assert ToConsumer(p.calls[..1][0]);
  }

  ghost predicate Waits(p: BodyPipe, c: nat)
    reads p
  {
    && p.Valid() && p.delivered == [] && p.fired == 0 && p.heard == [] && c in p.live && c < p.nextJob
    && p.ValidPtr(p.producer) && p.bodySize == -1 && NoEnds(p.calls)
    && p.getSize == 0 && !p.abortedConsumption && p.sinks == {} && !p.isCheckedOut
  }

  method DataAndEnd() returns (p: BodyPipe, c: nat)
    ensures fresh(p) && p.Valid() && p.delivered == [] && p.fired == 0 && p.heard == [] && p.attached == [c, c]
    ensures p.consumer == Some(c) && c in p.live && p.sinks == {} && !p.isCheckedOut
    ensures p.starts == [Start(0, 0), Start(0, 1)]
    ensures p.calls == [Note(Data, Some(c), 0), Note(Data, Some(c), 1), Note(Ended, Some(c), 1)]
  {
    hide BodyPipe.Valid;
    p, c := DataForTwo();
    p.ClearProducer(true);
  }

  method DataForTwo() returns (p: BodyPipe, c: nat)
    ensures fresh(p) && Waits(p, c) && p.consumer == Some(c) && p.attached == [c, c]
    ensures p.starts == [Start(0, 0), Start(0, 1)]
    ensures p.calls == [Note(Data, Some(c), 0), Note(Data, Some(c), 1)]
  {
    hide BodyPipe.Valid, NoneFor, NoEndFor, OwnOnly, BodyPipe.FoundNothing, BodyPipe.FoundNoEnd;
    p, c := DataForOne();
    var ok := p.SetConsumerIfNotLate(c);
  }

  /** A byte arrives for a job, which then leaves. */
  method DataForOne() returns (p: BodyPipe, c: nat)
    ensures fresh(p) && Waits(p, c) && p.consumer.None? && p.attached == [c] && p.buf != []
    ensures p.starts == [Start(0, 0)] && p.calls == [Note(Data, Some(c), 0)]
  {
    hide BodyPipe.Valid;
    p, c := FirstAttached();
    PutOne(p, c);
    p.ClearConsumer();
  }

  method PutOne(p: BodyPipe, c: nat)
    requires Waits(p, c) && p.consumer == Some(c) && p.attached == [c] && p.buf == [] && p.calls == []
    modifies p
    ensures Waits(p, c) && p.consumer == Some(c) && p.attached == [c] && p.buf != [] && p.starts == old(p.starts)
    ensures p.calls == [Note(Data, Some(c), 0)]
  {
    hide BodyPipe.Valid;
    var n := p.PutMoreData([0]);
    StreamIntact(p);
  }

  method FirstAttached() returns (p: BodyPipe, c: nat)
    ensures fresh(p) && Waits(p, c) && p.consumer == Some(c) && p.attached == [c] && p.buf == [] && p.calls == []
    ensures p.starts == [Start(0, 0)]
  {
    hide BodyPipe.Valid, NoneFor, NoEndFor, OwnOnly, BodyPipe.FoundNothing, BodyPipe.FoundNoEnd;
    p := new BodyPipe(0);
    c := p.NewJob();
    var ok := p.SetConsumerIfNotLate(c);
  }
}
