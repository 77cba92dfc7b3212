/**
 * The SendTransaction class of class/Providers.ts: a batch is appended to a
 * list of dispatch records, and the records are sent in list order, skipping
 * those already sent without failure; a send marks its record by the record's
 * `index` field, used as a position in the list.
 */
module Providers {
  import opened Types
  import opened Signer
  import opened Setup
  import opened Confirmation

  /** A record that was sent and has not failed; `_batch` skips it. */
  predicate Settled(d: Dispatchable)
  {
    d.sent && !d.failed
  }

  predicate AllSettled(ds: seq<Dispatchable>)
  {
    forall j :: 0 <= j < |ds| ==> Settled(ds[j])
  }

  /** `_keepOrResetDispatchable`: the list is cleared exactly when every record in it is settled. */
  function KeepOrReset(ds: seq<Dispatchable>): (r: seq<Dispatchable>)
    ensures r == [] <==> AllSettled(ds)
    ensures r != [] ==> r == ds
  {
    if AllSettled(ds) then [] else ds
  }

  /** The records pushed for freshly signed transactions: unsent, unfailed, numbered 0, 1, ... by their place in the batch. */
  function NewRecords(txs: seq<Transaction>): seq<Dispatchable>
  {
    seq(|txs|, j requires 0 <= j < |txs| => Dispatchable(txs[j], false, false, None, None, j))
  }

  /** What a send did: how it settled, the record list afterwards and the events it emitted. */
  datatype Bookkept = Bookkept(result: Confirmed, records: seq<Dispatchable>, emitted: seq<Event>)

  /**
   * sendSignedAsync of class/Providers.ts with its bookkeeping: after a
   * successful confirmation a truthy index writes `txId` and `sent` on the
   * record at that position (a position past the end raises a TypeError, so
   * the send rejects), then 'sent' is emitted with the index and the number
   * of instruction groups.
   */
  function SendSigned(ds: seq<Dispatchable>, index: Option<nat>, a: Attempt, length: Option<nat>): (r: Bookkept)
    ensures |r.records| == |ds|
    ensures r.result == (if a.result.Succeeds? && index.Some? && index.value >= |ds| && index.value != 0 then Fails(RecordMissing)
                   else a.result)
    ensures r.result.Succeeds? && index.Some? && 0 < index.value < |ds| ==>
      r.records == ds[index.value := ds[index.value].(txId := Some(r.result.txId), sent := true)]
    ensures !(r.result.Succeeds? && index.Some? && 0 < index.value < |ds|) ==> r.records == ds
    ensures r.emitted == a.emitted + (if r.result.Succeeds? then [Sent(r.result.txId, index, length)] else [])
  {
    if !a.result.Succeeds? then Bookkept(a.result, ds, a.emitted)
    else if index.None? || index.value == 0 then Bookkept(a.result, ds, a.emitted + [Sent(a.result.txId, index, length)])
    else if index.value >= |ds| then Bookkept(Fails(RecordMissing), ds, a.emitted)
    else
      var i := index.value;
      Bookkept(a.result, ds[i := ds[i].(txId := Some(a.result.txId), sent := true)], a.emitted + [Sent(a.result.txId, index, length)])
  }

  /** The 'error' event of the `.catch` handler of `_batch`, carrying the failed record itself. */
  function RecordFailure(d: Dispatchable): Event
  {
    Error(TransactionFailedError("Transaction failed.", FailedRecord(d)), None)
  }

  /**
   * One record's send as `_batch` starts it: sendSignedAsync on the k-th
   * record's transaction and index, then the `.catch` handler, which on a
   * rejection marks that record failed with the reason and emits the batch
   * error carrying it.
   */
  function Settle(ds: seq<Dispatchable>, k: nat, a: Attempt, length: Option<nat>): (s: Bookkept)
    requires k < |ds|
    ensures |s.records| == |ds|
    ensures s.result.Fails? ==>
      && s.records == ds[k := ds[k].(failed := true, failureReason := Some(s.result.reason))]
      && s.emitted == a.emitted + [RecordFailure(s.records[k])]
    ensures !s.result.Fails? ==> s == SendSigned(ds, Some(ds[k].index), a, length)
  {
    var b := SendSigned(ds, Some(ds[k].index), a, length);
    if b.result.Fails? then
      var marked := ds[k := ds[k].(failed := true, failureReason := Some(b.result.reason))];
      Bookkept(b.result, marked, b.emitted + [RecordFailure(marked[k])])
    else b
  }

  /**
   * The `for ... of` loop of `_batch` in Sequential and StopOnFailure from
   * position k: settled records are skipped, every other send is awaited, and
   * the first failure aborts the batch because awaiting the rejected promise
   * rethrows (the breakEarly exit is never reached); `attempts(p)` is how the
   * send of the record at position p settles and what it emits.
   */
  function RunFrom(ds: seq<Dispatchable>, k: nat, attempts: nat -> Attempt, length: Option<nat>)
    : (BatchOutcome, seq<Dispatchable>, seq<Event>)
    decreases |ds| - k
  {
    if k >= |ds| then (BatchFinished([]), ds, [])
    else if Settled(ds[k]) then RunFrom(ds, k + 1, attempts, length)
    else
      var s := Settle(ds, k, attempts(k), length);
      match s.result
      case Hangs => (BatchHung, s.records, s.emitted)
      case Fails(f) => (BatchFailed(f), s.records, s.emitted)
      case Succeeds(_, _) =>
        var rest := RunFrom(s.records, k + 1, attempts, length);
        (rest.0, rest.1, s.emitted + rest.2)
  }

  /** How the batch ends when a send stops it; a success lets it go on. */
  function TurnOutcome(r: Confirmed): BatchOutcome
  {
    match r
    case Hangs => BatchHung
    case Fails(f) => BatchFailed(f)
    case Succeeds(_, _) => BatchFinished([])
  }

  /** One turn of the loop, by whether the k-th record is settled and how its send settles. */
  lemma RunFromStep(ds: seq<Dispatchable>, k: nat, attempts: nat -> Attempt, length: Option<nat>)
    requires k < |ds|
    ensures Settled(ds[k]) ==> RunFrom(ds, k, attempts, length) == RunFrom(ds, k + 1, attempts, length)
    ensures !Settled(ds[k]) ==>
      var s := Settle(ds, k, attempts(k), length);
      var rest := RunFrom(s.records, k + 1, attempts, length);
      RunFrom(ds, k, attempts, length) ==
        if s.result.Succeeds? then (rest.0, rest.1, s.emitted + rest.2)
        else (TurnOutcome(s.result), s.records, s.emitted)
  {
  }

  /** The loop resumed at position k after `done` has been emitted. */
  function Resume(ds: seq<Dispatchable>, k: nat, attempts: nat -> Attempt, length: Option<nat>, done: seq<Event>)
    : (BatchOutcome, seq<Dispatchable>, seq<Event>)
  {
    var r := RunFrom(ds, k, attempts, length);
    (r.0, r.1, done + r.2)
  }

  /**
   * One turn of the loop seen from outside: given what the turn did to the
   * list and which events it emitted, the rest of the loop is either over
   * (the turn's send hung or failed) or resumes at the next position.
   */
  lemma TurnAdvances(before: seq<Dispatchable>, after: seq<Dispatchable>, k: nat, attempts: nat -> Attempt,
                     length: Option<nat>, done: seq<Event>, stop: bool, outcome: BatchOutcome, tail: seq<Event>)
    requires k < |before|
    requires Settled(before[k]) ==> !stop && after == before && tail == [] && outcome == BatchFinished([])
    requires !Settled(before[k]) ==>
      var s := Settle(before, k, attempts(k), length);
      after == s.records && tail == s.emitted && stop == !s.result.Succeeds? && outcome == TurnOutcome(s.result)
    ensures |after| == |before|
    ensures stop ==> Resume(before, k, attempts, length, done) == (outcome, after, done + tail)
    ensures !stop ==> (outcome == BatchFinished([]) &&
      Resume(before, k, attempts, length, done) == Resume(after, k + 1, attempts, length, done + tail))
  {
    RunFromStep(before, k, attempts, length);
    var rest := RunFrom(after, k + 1, attempts, length).2;
    assert done + (tail + rest) == done + tail + rest;
    assert done + [] + rest == done + rest;
  }

  /** How each send of a batch goes: the attempt the network's script for that position produces. */
  function Attempts(network: nat -> SendScript): nat -> Attempt
  {
    (p: nat) => Attempted(network(p), false)
  }

  /** `attempts` is what the network's scripts produce, position by position. */
  ghost predicate ScriptedBy(attempts: nat -> Attempt, network: nat -> SendScript)
  {
    forall p: nat {:trigger network(p)} :: attempts(p) == Attempted(network(p), false)
  }

  /** The positions from k on of the records that are not settled, in ascending order. */
  function InFlight(ds: seq<Dispatchable>, k: nat): (r: seq<nat>)
    ensures forall j :: 0 <= j < |r| ==> k <= r[j] < |ds| && !Settled(ds[r[j]])
    ensures forall p :: k <= p < |ds| && !Settled(ds[p]) ==> p in r
    ensures forall i, j :: 0 <= i < j < |r| ==> r[i] < r[j]
    decreases |ds| - k
  {
    if k >= |ds| then []
    else (if Settled(ds[k]) then [] else [k]) + InFlight(ds, k + 1)
  }

  /**
   * `_batch` after signAll, on the list `ds` as it was: the new records are
   * appended; Parallel starts a send for every unsettled record and emits
   * 'finish-sending' at once, with those sends still in flight; the other
   * policies run the loop and, when it completes, emit 'finish-sending' and
   * keep or reset the list.
   */
  function BatchRecords(ds: seq<Dispatchable>, txs: seq<Transaction>, sequenceType: SequenceType,
                        attempts: nat -> Attempt, length: Option<nat>): (BatchOutcome, seq<Dispatchable>, seq<Event>)
  {
    var all := ds + NewRecords(txs);
    if sequenceType == Parallel then (BatchFinished(InFlight(all, 0)), KeepOrReset(all), [FinishSending])
    else
      var r := RunFrom(all, 0, attempts, length);
      if r.0.BatchFinished? then (r.0, KeepOrReset(r.1), r.2 + [FinishSending]) else r
  }

  /** A falsy index writes no record: position 0 and an absent index leave the list as it was. */
  lemma IndexZeroNeverMarked(ds: seq<Dispatchable>, a: Attempt, length: Option<nat>)
    ensures SendSigned(ds, Some(0), a, length).records == ds
    ensures SendSigned(ds, None, a, length).records == ds
    ensures a.result.Succeeds? ==> SendSigned(ds, Some(0), a, length).emitted == a.emitted + [Sent(a.result.txId, Some(0), length)]
  {
  }

  /**
   * What the loop does to the list: its length, the transactions and indices are
   * kept; sent and failed flags are never cleared, so a settled record stays
   * settled; position 0 is never marked sent; and failed flags change only when
   * the batch fails.
   */
  lemma {:induction false} RunFromFrame(ds: seq<Dispatchable>, k: nat, attempts: nat -> Attempt, length: Option<nat>)
    ensures var r := RunFrom(ds, k, attempts, length).1;
      && |r| == |ds|
      && (forall j :: 0 <= j < |ds| ==> r[j].transaction == ds[j].transaction && r[j].index == ds[j].index)
      && (forall j :: 0 <= j < |ds| && ds[j].sent ==> r[j].sent)
      && (forall j :: 0 <= j < |ds| && ds[j].failed ==> r[j].failed)
      && (forall j :: 0 <= j < |ds| && Settled(ds[j]) ==> Settled(r[j]))
      && (|ds| > 0 ==> r[0].sent == ds[0].sent)
    ensures !RunFrom(ds, k, attempts, length).0.BatchFailed? ==>
      forall j :: 0 <= j < |ds| ==> RunFrom(ds, k, attempts, length).1[j].failed == ds[j].failed
    decreases |ds| - k
  {
    if k < |ds| {
      if Settled(ds[k]) {
        RunFromFrame(ds, k + 1, attempts, length);
      } else {
        var s := Settle(ds, k, attempts(k), length);
        SettleFrame(ds, k, attempts(k), length);
        if s.result.Succeeds? {
          RunFromFrame(s.records, k + 1, attempts, length);
        }
      }
    }
  }

  /**
   * In the run r over `before`, the record at p was unsettled, is now marked
   * failed with the batch's reason, and its 'error' event is the last one.
   */
  ghost predicate FailureAt(before: seq<Dispatchable>, r: (BatchOutcome, seq<Dispatchable>, seq<Event>), p: nat)
  {
    && p < |before| && p < |r.1| && !Settled(before[p])
    && r.0.BatchFailed? && r.1[p].failed && r.1[p].failureReason == Some(r.0.failure)
    && |r.2| > 0 && r.2[|r.2| - 1] == RecordFailure(r.1[p])
  }

  /** A failure further on is still the last event once earlier events are put in front. */
  lemma FailureAfter(before: seq<Dispatchable>, after: seq<Dispatchable>, r: (BatchOutcome, seq<Dispatchable>, seq<Event>),
                     emitted: seq<Event>, p: nat)
    requires FailureAt(after, r, p) && |after| == |before|
    requires Settled(before[p]) ==> Settled(after[p])
    ensures FailureAt(before, (r.0, r.1, emitted + r.2), p)
  {
    var es := emitted + r.2;
    assert es[|es| - 1] == r.2[|r.2| - 1];
  }

  /**
   * A batch that fails has marked the record it failed on: some record from
   * position k on that was unsettled carries `failed` and the failure as its
   * reason, and the batch's last event is the error carrying that record.
   */
  lemma {:induction false} FailureMarksOwnRecord(ds: seq<Dispatchable>, k: nat, attempts: nat -> Attempt, length: Option<nat>)
    requires RunFrom(ds, k, attempts, length).0.BatchFailed?
    ensures exists p :: k <= p && FailureAt(ds, RunFrom(ds, k, attempts, length), p)
    decreases |ds| - k
  {
    RunFromStep(ds, k, attempts, length);
    if Settled(ds[k]) {
      FailureMarksOwnRecord(ds, k + 1, attempts, length);
    } else {
      var s := Settle(ds, k, attempts(k), length);
      if s.result.Succeeds? {
        SettleFrame(ds, k, attempts(k), length);
        FailureMarksOwnRecord(s.records, k + 1, attempts, length);
        var r := RunFrom(s.records, k + 1, attempts, length);
        var p :| k + 1 <= p && FailureAt(s.records, r, p);
        FailureAfter(ds, s.records, r, s.emitted, p);
      } else {
        assert FailureAt(ds, RunFrom(ds, k, attempts, length), k);
      }
    }
  }


  /** The frame of one send: the facts RunFromFrame states, for a single step. */
  lemma SettleFrame(ds: seq<Dispatchable>, k: nat, a: Attempt, length: Option<nat>)
    requires k < |ds| && !Settled(ds[k])
    ensures var r := Settle(ds, k, a, length).records;
      && |r| == |ds|
      && (forall j :: 0 <= j < |ds| ==> r[j].transaction == ds[j].transaction && r[j].index == ds[j].index)
      && (forall j :: 0 <= j < |ds| && ds[j].sent ==> r[j].sent)
      && (forall j :: 0 <= j < |ds| && ds[j].failed ==> r[j].failed)
      && (forall j :: 0 <= j < |ds| && Settled(ds[j]) ==> Settled(r[j]))
      && (|ds| > 0 ==> r[0].sent == ds[0].sent)
    ensures !Settle(ds, k, a, length).result.Fails? ==>
      forall j :: 0 <= j < |ds| ==> Settle(ds, k, a, length).records[j].failed == ds[j].failed
  {
  }

  /** One step of the loop keeps every settled record settled. */
  lemma SettleKeepsSettled(ds: seq<Dispatchable>, k: nat, a: Attempt, length: Option<nat>)
    requires k < |ds| && !Settled(ds[k])
    ensures forall j :: 0 <= j < |ds| && Settled(ds[j]) ==> Settled(Settle(ds, k, a, length).records[j])
  {
  }

  /**
   * Settled records are skipped: two networks whose sends go alike for every
   * record not yet settled give the same batch, whatever they would do for
   * the settled ones.
   */
  lemma {:induction false} SettledRecordsSkipped(ds: seq<Dispatchable>, k: nat, n1: nat -> Attempt, n2: nat -> Attempt,
                                                 length: Option<nat>)
    requires forall p :: k <= p < |ds| && !Settled(ds[p]) ==> n1(p) == n2(p)
    ensures RunFrom(ds, k, n1, length) == RunFrom(ds, k, n2, length)
    decreases |ds| - k
  {
    if k < |ds| {
      if Settled(ds[k]) {
        SettledRecordsSkipped(ds, k + 1, n1, n2, length);
      } else {
        var s := Settle(ds, k, n1(k), length);
        if s.result.Succeeds? {
          SettleKeepsSettled(ds, k, n1(k), length);
          SettledRecordsSkipped(s.records, k + 1, n1, n2, length);
        }
      }
    }
  }

  /** A list whose records are all settled sends nothing: the loop completes at once and emits nothing. */
  lemma {:induction false} AllSettledSendsNothing(ds: seq<Dispatchable>, k: nat, attempts: nat -> Attempt, length: Option<nat>)
    requires AllSettled(ds)
    ensures RunFrom(ds, k, attempts, length) == (BatchFinished([]), ds, [])
    decreases |ds| - k
  {
    if k < |ds| {
      AllSettledSendsNothing(ds, k + 1, attempts, length);
    }
  }

  lemma {:induction false} NothingInFlight(ds: seq<Dispatchable>, k: nat)
    requires AllSettled(ds)
    ensures InFlight(ds, k) == []
    decreases |ds| - k
  {
    if k < |ds| {
      NothingInFlight(ds, k + 1);
    }
  }

  /** A batch of no transactions over a settled list only emits 'finish-sending' and clears the list. */
  lemma EmptyBatchOverSettledList(ds: seq<Dispatchable>, sequenceType: SequenceType, attempts: nat -> Attempt, length: Option<nat>)
    requires AllSettled(ds)
    ensures BatchRecords(ds, [], sequenceType, attempts, length) == (BatchFinished([]), [], [FinishSending])
  {
    assert ds + NewRecords([]) == ds;
    assert KeepOrReset(ds) == [];
    if sequenceType == Parallel {
      NothingInFlight(ds, 0);
    } else {
      AllSettledSendsNothing(ds, 0, attempts, length);
      assert [] + [FinishSending] == [FinishSending];
    }
  }

  /**
   * The first batch on an empty list is never cleared: its record at position 0
   * has index 0, which no send marks, so it stays unsent and keep-or-reset
   * keeps the whole list, under every policy and whatever the network does.
   */
  lemma FirstBatchNeverCleared(txs: seq<Transaction>, sequenceType: SequenceType, attempts: nat -> Attempt, length: Option<nat>)
    requires |txs| > 0
    ensures var r := BatchRecords([], txs, sequenceType, attempts, length).1;
      |r| == |txs| && !r[0].sent
  {
    var all := [] + NewRecords(txs);
    assert !Settled(all[0]);
    RunFromFrame(all, 0, attempts, length);
  }

  /**
   * Indices point at the wrong record once leftovers remain: the j-th new
   * record (j > 0) sits at position |ds| + j but carries index j, so its
   * successful send marks position j and leaves its own record unsent.
   */
  lemma LeftoversMisdirectMarks(ds: seq<Dispatchable>, txs: seq<Transaction>, j: nat, a: Attempt, length: Option<nat>)
    requires |ds| > 0 && 0 < j < |txs|
    requires a.result.Succeeds?
    ensures var all := ds + NewRecords(txs);
      var s := Settle(all, |ds| + j, a, length);
      && s.result.Succeeds?
      && s.records[|ds| + j] == all[|ds| + j] && !s.records[|ds| + j].sent
      && s.records[j].sent && s.records[j].txId == Some(a.result.txId)
  {
    var all := ds + NewRecords(txs);
    assert all[|ds| + j].index == j;
  }

  /** The kinds of event the loop emits: never 'finally'. */
  lemma {:induction false} RunFromEventKinds(ds: seq<Dispatchable>, k: nat, network: nat -> SendScript, length: Option<nat>)
    ensures forall j :: 0 <= j < |RunFrom(ds, k, Attempts(network), length).2| ==>
      BatchEvent(RunFrom(ds, k, Attempts(network), length).2[j]) && !RunFrom(ds, k, Attempts(network), length).2[j].FinishSending?
    decreases |ds| - k
  {
    if k < |ds| {
      if Settled(ds[k]) {
        RunFromEventKinds(ds, k + 1, network, length);
      } else {
        var s := Settle(ds, k, Attempts(network)(k), length);
        TimeoutBranchUnreachable(network(k), false);
        assert Attempts(network)(k) == Attempted(network(k), false);
        assert forall j :: 0 <= j < |s.emitted| ==> BatchEvent(s.emitted[j]) && !s.emitted[j].FinishSending?;
        if s.result.Succeeds? {
          RunFromEventKinds(s.records, k + 1, network, length);
          var rest := RunFrom(s.records, k + 1, Attempts(network), length).2;
          assert forall j :: 0 <= j < |rest| ==> BatchEvent(rest[j]) && !rest[j].FinishSending?;
        }
      }
    }
  }

  lemma BatchRecordsEventKinds(ds: seq<Dispatchable>, txs: seq<Transaction>, sequenceType: SequenceType,
                               network: nat -> SendScript, length: Option<nat>)
    ensures forall j :: 0 <= j < |BatchRecords(ds, txs, sequenceType, Attempts(network), length).2| ==>
      BatchEvent(BatchRecords(ds, txs, sequenceType, Attempts(network), length).2[j])
  {
    RunFromEventKinds(ds + NewRecords(txs), 0, network, length);
  }
  /**
   * 'finish-sending' is emitted exactly when the batch finishes, and then it
   * is the last event: a send that fails or hangs aborts the loop before it.
   */
  lemma BatchFinishesExactly(ds: seq<Dispatchable>, txs: seq<Transaction>, sequenceType: SequenceType,
                             network: nat -> SendScript, length: Option<nat>)
    ensures var r := BatchRecords(ds, txs, sequenceType, Attempts(network), length);
      && (FinishSending in r.2 <==> r.0.BatchFinished?)
      && (r.0.BatchFinished? ==> |r.2| > 0 && r.2[|r.2| - 1] == FinishSending)
  {
    if sequenceType != Parallel {
      var r := RunFrom(ds + NewRecords(txs), 0, Attempts(network), length);
      RunFromEventKinds(ds + NewRecords(txs), 0, network, length);
      assert FinishSending !in r.2;
    }
  }

  /** Every record's batch-relative index is at most its position in the list. */
  predicate IndicesBehind(ds: seq<Dispatchable>)
  {
    forall j :: 0 <= j < |ds| ==> ds[j].index <= j
  }

  /**
   * New records are appended behind the old ones and the loop never changes
   * an index, so a list that starts empty keeps every index at most its position.
   */
  lemma BatchKeepsIndicesBehind(ds: seq<Dispatchable>, txs: seq<Transaction>, sequenceType: SequenceType,
                                attempts: nat -> Attempt, length: Option<nat>)
    requires IndicesBehind(ds)
    ensures IndicesBehind(BatchRecords(ds, txs, sequenceType, attempts, length).1)
  {
    var all := ds + NewRecords(txs);
    assert IndicesBehind(all);
    RunFromFrame(all, 0, attempts, length);
  }

  /** One send writes only its own position and the position its index names. */
  lemma SettleTouches(ds: seq<Dispatchable>, k: nat, a: Attempt, length: Option<nat>)
    requires k < |ds|
    ensures forall j :: 0 <= j < |ds| && j != k && j != ds[k].index ==> Settle(ds, k, a, length).records[j] == ds[j]
  {
  }

  /** The record at p, unsettled before, stopped the run; every record after it is as it was. */
  ghost predicate StoppedAt(before: seq<Dispatchable>, after: seq<Dispatchable>, p: nat)
  {
    p < |before| && |after| == |before| && !Settled(before[p]) &&
    forall j :: p < j < |before| ==> after[j] == before[j]
  }

  /**
   * A run that hangs or fails stops at an unsettled record from k on and
   * leaves every record after it untouched: nothing further is sent.
   */
  lemma {:induction false} StopLeavesRest(ds: seq<Dispatchable>, k: nat, attempts: nat -> Attempt, length: Option<nat>)
    requires IndicesBehind(ds)
    requires !RunFrom(ds, k, attempts, length).0.BatchFinished?
    ensures exists p :: k <= p && StoppedAt(ds, RunFrom(ds, k, attempts, length).1, p)
    decreases |ds| - k
  {
    RunFromStep(ds, k, attempts, length);
    if Settled(ds[k]) {
      StopLeavesRest(ds, k + 1, attempts, length);
    } else {
      var s := Settle(ds, k, attempts(k), length);
      SettleTouches(ds, k, attempts(k), length);
      if s.result.Succeeds? {
        SettleFrame(ds, k, attempts(k), length);
        assert IndicesBehind(s.records);
        StopLeavesRest(s.records, k + 1, attempts, length);
        var r := RunFrom(s.records, k + 1, attempts, length).1;
        var p :| k + 1 <= p && StoppedAt(s.records, r, p);
        assert StoppedAt(ds, r, p);
      } else {
        assert StoppedAt(ds, s.records, k);
      }
    }
  }

  /**
   * A batch that hangs or fails stops at one of the records it walked and
   * leaves every record after that one as it was.
   */
  lemma BatchStopLeavesRest(ds: seq<Dispatchable>, txs: seq<Transaction>, sequenceType: SequenceType,
                            attempts: nat -> Attempt, length: Option<nat>)
    requires IndicesBehind(ds)
    requires !BatchRecords(ds, txs, sequenceType, attempts, length).0.BatchFinished?
    ensures exists p :: StoppedAt(ds + NewRecords(txs), BatchRecords(ds, txs, sequenceType, attempts, length).1, p)
  {
    var all := ds + NewRecords(txs);
    assert IndicesBehind(all);
    StopLeavesRest(all, 0, attempts, length);
  }


  class SendTransaction {
    var wallet: Wallet
    var instructions: InstructionSet
    var signers: SignerSet
    /** `transactions.isSingle`: None until setIsSingleTxn writes it */
    var isSingle: Option<bool>
    var timeoutMs: int
    /** whether `send` or `sendSigned` has attached an emitter */
    var emitterAttached: bool
    /** the events emitted so far */
    var events: seq<Event>
    /** the dispatch records of the batches sent so far */
    var dispatchable: seq<Dispatchable>

    /** A constructed object: the shape check has passed, so the request is a batch of arrays. */
    predicate Valid()
      reads this
    {
      && isSingle == Some(false)
      && instructions.NestedInstructions? && |instructions.groups| > 0
      && signers.NestedSigners? && |signers.groups| > 0
    }

    /** The field initialisers and the constructor's assignments, before setIsSingleTxn runs. */
    constructor Init(wallet: Wallet, instructions: InstructionSet, signers: SignerSet, timeout: Option<int>)
      ensures this.wallet == wallet && this.instructions == instructions && this.signers == signers
      ensures isSingle == None && timeoutMs == NextTimeout(DefaultTimeout, timeout)
      ensures !emitterAttached && events == [] && dispatchable == []
    {
      this.wallet := wallet;
      this.instructions := instructions;
      this.signers := signers;
      isSingle := None;
      timeoutMs := DefaultTimeout;
      emitterAttached := false;
      events := [];
      dispatchable := [];
      new;
      SetTimeout(timeout);
    }

    /** The timeout setter: a falsy value leaves the timeout as it was. */
    method SetTimeout(value: Option<int>)
      modifies this`timeoutMs
      ensures timeoutMs == NextTimeout(old(timeoutMs), value)
    {
      if value.Some? && value.value != 0 {
        timeoutMs := value.value;
      }
    }

    /**
     * setIsSingleTxn: an array sets `isSingle` to true at once, then to false
     * when both first elements are arrays, and throws otherwise.
     */
    method SetIsSingleTxn() returns (err: Option<Failure>)
      modifies this`isSingle
      ensures err == ShapeError(instructions, signers)
      ensures err.None? ==> isSingle == Some(false)
      ensures err == Some(NotEnoughSigners) ==> isSingle == Some(true)
      ensures err == Some(InstructionsMustBeArray) ==> isSingle == old(isSingle)
    {
      if !instructions.InstructionsNotArray? {
        isSingle := Some(true);
        if FirstIsArray(instructions) && FirstSignerIsArray(signers) {
          isSingle := Some(false);
          err := None;
        } else {
          err := Some(NotEnoughSigners);
        }
      } else {
        err := Some(InstructionsMustBeArray);
      }
    }

    /** `new SendTransaction(params)`: a valid object with an empty record list, or the error the shape check throws. */
    static method New(wallet: Wallet, instructions: InstructionSet, signers: SignerSet, timeout: Option<int>)
      returns (r: Result<SendTransaction, Failure>)
      ensures r.Err? <==> ShapeError(instructions, signers).Some?
      ensures r.Err? ==> r.error == ShapeError(instructions, signers).value
      ensures r.Ok? ==> fresh(r.value) && r.value.Valid() && r.value.events == [] && !r.value.emitterAttached
      ensures r.Ok? ==> r.value.dispatchable == [] && r.value.timeoutMs == NextTimeout(DefaultTimeout, timeout)
    {
      var t := new SendTransaction.Init(wallet, instructions, signers, timeout);
      var err := t.SetIsSingleTxn();
      if err.Some? {
        return Err(err.value);
      }
      r := Ok(t);
    }

    /** notify: appends the events when an emitter is attached. */
    method Notify(es: seq<Event>)
      modifies this`events
      ensures events == old(events) + Emit(emitterAttached, es)
    {
      if emitterAttached {
        events := events + es;
      }
    }

    /** reset: `splice(0)` empties the list. */
    method Reset()
      modifies this`dispatchable
      ensures dispatchable == []
    {
      dispatchable := [];
    }

    /** `_keepOrResetDispatchable`: resets the list when every record is settled. */
    method KeepOrResetDispatchable()
      modifies this`dispatchable
      ensures AllSettled(old(dispatchable)) ==> dispatchable == []
      ensures !AllSettled(old(dispatchable)) ==> dispatchable == old(dispatchable)
    {
      if forall j :: 0 <= j < |dispatchable| ==> Settled(dispatchable[j]) {
        Reset();
      }
    }

    /** sendSignedAsync: the attempt, the write to the record at a truthy index, then 'sent'. */
    method SendSignedAsync(index: Option<nat>, script: SendScript) returns (r: Confirmed)
      modifies this`events, this`dispatchable
      ensures var b := SendSigned(old(dispatchable), index, Attempted(script, false), InstructionCount(instructions));
        r == b.result && dispatchable == b.records && events == old(events) + Emit(emitterAttached, b.emitted)
    {
      var a := AttemptSend(script, false);
      Notify(a.emitted);
      r := a.result;
      if r.Succeeds? {
        if index.Some? && index.value != 0 {
          if index.value >= |dispatchable| {
            // `dispatchable[index]` is undefined: setting its txId throws a TypeError
            return Fails(RecordMissing);
          }
          var i := index.value;
          dispatchable := dispatchable[i := dispatchable[i].(txId := Some(r.txId))];
          dispatchable := dispatchable[i := dispatchable[i].(sent := true)];
        }
        Notify([Sent(r.txId, index, InstructionCount(instructions))]);
      }
    }

    /**
     * The send `_batch` starts for the record at position k, with its `.catch`
     * handler; in Parallel this is how each in-flight send completes after
     * 'finish-sending'.
     */
    method Dispatch(k: nat, script: SendScript) returns (r: Confirmed)
      requires k < |dispatchable|
      modifies this`events, this`dispatchable
      ensures var s := Settle(old(dispatchable), k, Attempted(script, false), InstructionCount(instructions));
        r == s.result && dispatchable == s.records && events == old(events) + Emit(emitterAttached, s.emitted)
    {
      ghost var before := dispatchable;
      var d := dispatchable[k];
      r := SendSignedAsync(Some(d.index), script);
      if r.Fails? {
        ghost var failedEvents := events;
        dispatchable := dispatchable[k := dispatchable[k].(failed := true, failureReason := Some(r.reason))];
        Notify([RecordFailure(dispatchable[k])]);
        EmitAppend(emitterAttached, Attempted(script, false).emitted, [RecordFailure(dispatchable[k])]);
      }
    }

    /**
     * `_batch`: the wallet and block checks, signAll, the new records pushed,
     * then the sends as BatchRecords states.
     */
    method Batch(sequenceType: SequenceType, block: Option<Block>, reply: WalletReply, network: nat -> SendScript)
      returns (outcome: BatchOutcome)
      requires Valid()
      modifies this`events, this`dispatchable
      ensures wallet.publicKey.None? ==>
        outcome == BatchFailed(WalletNotConnected) && events == old(events) && dispatchable == old(dispatchable)
      ensures wallet.publicKey.Some? && block.None? ==>
        outcome == BatchFailed(NoRecentBlockhash) && events == old(events) && dispatchable == old(dispatchable)
      ensures wallet.publicKey.Some? && block.Some? ==>
        var signed := SignAllResult(wallet, instructions.groups, signers.groups, block.value, reply);
        if signed.Err? then outcome == BatchFailed(signed.error) && events == old(events) && dispatchable == old(dispatchable)
        else
          var (o, ds, es) := BatchRecords(old(dispatchable), signed.value, sequenceType, Attempts(network), InstructionCount(instructions));
          outcome == o && dispatchable == ds && events == old(events) + Emit(emitterAttached, es)
    {
      if wallet.publicKey.None? {
        return BatchFailed(WalletNotConnected);
      }
      if block.None? {
        return BatchFailed(NoRecentBlockhash);
      }
      var signed := SignAll(wallet, instructions.groups, signers.groups, block.value, reply);
      if signed.Err? {
        return BatchFailed(signed.error);
      }
      dispatchable := dispatchable + NewRecords(signed.value);
      if sequenceType == Parallel {
        // a send is started for every unsettled record; none has settled when 'finish-sending' is emitted
        outcome := BatchFinished(InFlight(dispatchable, 0));
        Notify([FinishSending]);
        KeepOrResetDispatchable();
        return;
      }
      assert ScriptedBy(Attempts(network), network);
      ghost var run := RunFrom(dispatchable, 0, Attempts(network), InstructionCount(instructions));
      outcome := AwaitRecords(network, Attempts(network));
      if outcome.BatchFinished? {
        Notify([FinishSending]);
        EmitExtends(old(events), emitterAttached, run.2, [FinishSending]);
        KeepOrResetDispatchable();
      }
    }

    /** The loop of `_batch` in Sequential and StopOnFailure, over the whole list as it stands. */
    method AwaitRecords(network: nat -> SendScript, ghost attempts: nat -> Attempt) returns (outcome: BatchOutcome)
      requires ScriptedBy(attempts, network)
      modifies this`events, this`dispatchable
      ensures var r := RunFrom(old(dispatchable), 0, attempts, InstructionCount(instructions));
        outcome == r.0 && dispatchable == r.1 && events == old(events) + Emit(emitterAttached, r.2)
    {
      var length := InstructionCount(instructions);
      ghost var total := RunFrom(dispatchable, 0, attempts, length);
      ghost var base := events;
      var k := 0;
      ghost var emitted: seq<Event> := [];
      assert [] + total.2 == total.2;
      assert base + [] == base;
      while k < |dispatchable|
        invariant 0 <= k <= |dispatchable|
        invariant total == Resume(dispatchable, k, attempts, length, emitted)
        invariant events == base + Emit(emitterAttached, emitted)
      {
        var stop, o;
        ghost var tail;
        stop, o, tail := AwaitRecord(k, network, attempts, base, emitted);
        emitted := emitted + tail;
        if stop {
          assert emitted + [] == emitted;
          return o;
        }
        k := k + 1;
      }
      assert emitted + [] == emitted;
      outcome := BatchFinished([]);
    }

    /**
     * One turn of that loop: skip a settled record, otherwise await its send;
     * stop with the batch outcome when the send hangs or fails. `done` is what
     * the earlier turns emitted on top of `base`.
     */
    method AwaitRecord(k: nat, network: nat -> SendScript, ghost attempts: nat -> Attempt,
                       ghost base: seq<Event>, ghost done: seq<Event>)
      returns (stop: bool, outcome: BatchOutcome, ghost tail: seq<Event>)
      requires k < |dispatchable| && ScriptedBy(attempts, network)
      requires events == base + Emit(emitterAttached, done)
      modifies this`events, this`dispatchable
      ensures |dispatchable| == |old(dispatchable)|
      ensures events == base + Emit(emitterAttached, done + tail)
      ensures stop ==>
        Resume(old(dispatchable), k, attempts, InstructionCount(instructions), done) == (outcome, dispatchable, done + tail)
      ensures !stop ==> (outcome == BatchFinished([]) &&
        Resume(old(dispatchable), k, attempts, InstructionCount(instructions), done) ==
        Resume(dispatchable, k + 1, attempts, InstructionCount(instructions), done + tail))
    {
      ghost var before := dispatchable;
      if Settled(dispatchable[k]) {
        stop, outcome, tail := false, BatchFinished([]), [];
        assert done + [] == done;
      } else {
        assert attempts(k) == Attempted(network(k), false);
        tail := Settle(dispatchable, k, Attempted(network(k), false), InstructionCount(instructions)).emitted;
        var r := Dispatch(k, network(k));
        stop := !r.Succeeds?;
        outcome := TurnOutcome(r);
        EmitExtends(base, emitterAttached, done, tail);
      }
      TurnAdvances(before, dispatchable, k, attempts, InstructionCount(instructions), done, stop, outcome, tail);
    }

    /**
     * sendAsync: the wallet check, the current block, then `_batch` (single
     * mode cannot be set, see FlatIsRefused); the batch appends only batch events.
     */
    method SendAsync(sequenceType: SequenceType, supplied: Option<Block>, fetched: Result<Block, Failure>,
                     reply: WalletReply, network: nat -> SendScript)
      returns (outcome: BatchOutcome, written: Option<Block>)
      requires Valid()
      modifies this`events, this`dispatchable
      ensures written == if wallet.publicKey.None? then supplied else BlockAfter(supplied, fetched)
      ensures wallet.publicKey.None? ==>
        outcome == BatchFailed(WalletNotConnected) && dispatchable == old(dispatchable) && events == old(events)
      ensures wallet.publicKey.Some? && CurrentBlock(supplied, fetched).0.Err? ==>
        outcome == BatchFailed(CurrentBlock(supplied, fetched).0.error) &&
        dispatchable == old(dispatchable) && events == old(events)
      ensures wallet.publicKey.Some? && CurrentBlock(supplied, fetched).0.Ok? ==>
        var signed := SignAllResult(wallet, instructions.groups, signers.groups, CurrentBlock(supplied, fetched).0.value, reply);
        if signed.Err? then outcome == BatchFailed(signed.error) && events == old(events) && dispatchable == old(dispatchable)
        else
          var (o, ds, es) := BatchRecords(old(dispatchable), signed.value, sequenceType, Attempts(network), InstructionCount(instructions));
          outcome == o && dispatchable == ds && events == old(events) + Emit(emitterAttached, es)
      ensures |events| >= |old(events)| && events[..|old(events)|] == old(events)
      ensures forall j :: |old(events)| <= j < |events| ==> BatchEvent(events[j])
    {
      written := supplied;
      if wallet.publicKey.None? {
        return BatchFailed(WalletNotConnected), written;
      }
      var (block, _) := CurrentBlock(supplied, fetched);
      if block.Err? {
        return BatchFailed(block.error), written;
      }
      written := Some(block.value);
      ghost var ds := dispatchable;
      outcome := Batch(sequenceType, Some(block.value), reply, network);
      ghost var signed := SignAllResult(wallet, instructions.groups, signers.groups, block.value, reply);
      if signed.Ok? {
        BatchRecordsEventKinds(ds, signed.value, sequenceType, network, InstructionCount(instructions));
      }
      assert events[..|old(events)|] == old(events);
    }

    /**
     * send: attaches the emitter, then sendAsync; a rejection is emitted as
     * 'error', and 'finally' follows unless the call never settles.
     */
    method Send(sequenceType: SequenceType, supplied: Option<Block>, fetched: Result<Block, Failure>,
                reply: WalletReply, network: nat -> SendScript)
      returns (outcome: BatchOutcome, written: Option<Block>)
      requires Valid()
      modifies this`events, this`emitterAttached, this`dispatchable
      ensures emitterAttached
      ensures written == if wallet.publicKey.None? then supplied else BlockAfter(supplied, fetched)
      ensures wallet.publicKey.None? ==>
        outcome == BatchFailed(WalletNotConnected) && dispatchable == old(dispatchable) &&
        events == old(events) + [Error(Thrown(WalletNotConnected), None), Finally]
      ensures CurrentBlock(supplied, fetched).0.Err? && wallet.publicKey.Some? ==>
        outcome == BatchFailed(CurrentBlock(supplied, fetched).0.error) && dispatchable == old(dispatchable) &&
        events == old(events) + [Error(Thrown(outcome.failure), None), Finally]
      ensures wallet.publicKey.Some? && CurrentBlock(supplied, fetched).0.Ok? ==>
        var signed := SignAllResult(wallet, instructions.groups, signers.groups, CurrentBlock(supplied, fetched).0.value, reply);
        if signed.Err? then
          outcome == BatchFailed(signed.error) && dispatchable == old(dispatchable) && events == old(events) + Closing(outcome)
        else
          var (o, ds, es) := BatchRecords(old(dispatchable), signed.value, sequenceType, Attempts(network), InstructionCount(instructions));
          outcome == o && dispatchable == ds && events == old(events) + es + Closing(outcome)
      ensures SendLog(old(events), events, outcome)
    {
      emitterAttached := true;
      outcome, written := SendAsync(sequenceType, supplied, fetched, reply, network);
      ghost var mid := events;
      if outcome.BatchFailed? {
        Notify([Error(Thrown(outcome.failure), None)]);
      }
      if !outcome.BatchHung? {
        Notify([Finally]);
      }
      assert events == mid + Closing(outcome);
      ClosingEvents(old(events), mid, outcome);
    }
  }
}
