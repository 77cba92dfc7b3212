/**
 * The SendTransaction class of class/TransactionProvider.ts: the batch is
 * dispatched by position over the freshly signed transactions, without a
 * record list.
 */
module Provider {
  import opened Types
  import opened Signer
  import opened Setup
  import opened Confirmation

  /** The 'sent' event a successful send at index `index` ends with. */
  function SentNotice(r: Confirmed, index: Option<nat>, length: Option<nat>): seq<Event>
  {
    if r.Succeeds? then [Sent(r.txId, index, length)] else []
  }

  /** The error the `.catch` handler of `_batch` emits for the i-th transaction. */
  function BatchFailure(txs: seq<Transaction>, i: nat): Event
    requires i < |txs|
  {
    Error(TransactionFailedError("Transaction failed.", FailedIndex(txs[i], i)), None)
  }

  /**
   * The awaited sends from position i on (Sequential and StopOnFailure alike):
   * each send completes before the next starts; the first failure emits the
   * batch error and aborts, because awaiting the rejected promise rethrows;
   * after the last send comes 'finish-sending'.
   */
  function SendsFrom(txs: seq<Transaction>, i: nat, network: nat -> SendScript, length: Option<nat>)
    : (BatchOutcome, seq<Event>)
    decreases |txs| - i
  {
    if i >= |txs| then (BatchFinished([]), [FinishSending])
    else
      var a := Attempted(network(i), true);
      match a.result
      case Hangs => (BatchHung, a.emitted)
      case Fails(f) => (BatchFailed(f), a.emitted + [BatchFailure(txs, i)])
      case Succeeds(id, _) =>
        var rest := SendsFrom(txs, i + 1, network, length);
        (rest.0, a.emitted + [Sent(id, Some(i), length)] + rest.1)
  }

  /** One step of SendsFrom, by the outcome of the i-th send. */
  lemma SendsFromStep(txs: seq<Transaction>, i: nat, network: nat -> SendScript, length: Option<nat>)
    requires i < |txs|
    ensures var a := Attempted(network(i), true);
      var rest := SendsFrom(txs, i + 1, network, length);
      SendsFrom(txs, i, network, length) ==
        if a.result.Hangs? then (BatchHung, a.emitted)
        else if a.result.Fails? then (BatchFailed(a.result.reason), a.emitted + [BatchFailure(txs, i)])
        else (rest.0, a.emitted + [Sent(a.result.txId, Some(i), length)] + rest.1)
  {
  }
  /** The loop resumed at position i after `done` has been emitted. */
  function Resumed(txs: seq<Transaction>, i: nat, network: nat -> SendScript, length: Option<nat>, done: seq<Event>)
    : (BatchOutcome, seq<Event>)
  {
    var r := SendsFrom(txs, i, network, length);
    (r.0, done + r.1)
  }


  /** `[lo, lo + 1, ..., hi - 1]`. */
  function Range(lo: nat, hi: nat): (r: seq<nat>)
    requires lo <= hi
    ensures |r| == hi - lo
    ensures forall j :: 0 <= j < |r| ==> r[j] == lo + j
    decreases hi - lo
  {
    if lo == hi then [] else [lo] + Range(lo + 1, hi)
  }

  /**
   * What `_batch` does after its entry checks, given the signed transactions:
   * Parallel starts every send and emits 'finish-sending' at once, leaving all
   * of them in flight; the other two policies await each send in turn.
   */
  function BatchSpec(txs: seq<Transaction>, sequenceType: SequenceType, network: nat -> SendScript, length: Option<nat>)
    : (BatchOutcome, seq<Event>)
  {
    if sequenceType == Parallel then (BatchFinished(Range(0, |txs|)), [FinishSending])
    else SendsFrom(txs, 0, network, length)
  }

  /** The i-th send succeeds. */
  predicate SendSucceeds(network: nat -> SendScript, i: nat)
  {
    Attempted(network(i), true).result.Succeeds?
  }

  /** The position of the first send from i on that does not succeed, or |txs|. */
  function FirstUnsuccessful(txs: seq<Transaction>, i: nat, network: nat -> SendScript): (m: nat)
    requires i <= |txs|
    ensures i <= m <= |txs|
    ensures forall j :: i <= j < m ==> SendSucceeds(network, j)
    ensures m < |txs| ==> !SendSucceeds(network, m)
    decreases |txs| - i
  {
    if i == |txs| then i
    else if SendSucceeds(network, i) then FirstUnsuccessful(txs, i + 1, network)
    else i
  }

  /** The indices carried by the 'sent' events, in order. */
  function SentIndices(es: seq<Event>): seq<Option<nat>>
  {
    if es == [] then []
    else (if es[0].Sent? then [es[0].index] else []) + SentIndices(es[1..])
  }

  lemma {:induction false} SentIndicesAppend(a: seq<Event>, b: seq<Event>)
    ensures SentIndices(a + b) == SentIndices(a) + SentIndices(b)
  {
    if a != [] {
      assert (a + b)[1..] == a[1..] + b;
      SentIndicesAppend(a[1..], b);
    } else {
      assert a + b == b;
    }
  }

  /** The race emits no 'sent' event, and neither does a failed send. */
  lemma {:induction false} NoSentInAttempt(script: SendScript)
    ensures SentIndices(Attempted(script, true).emitted) == []
  {
    TimeoutBranchUnreachable(script, true);
    NoSentInRaceEvents(Attempted(script, true).emitted);
  }

  lemma {:induction false} NoSentInRaceEvents(es: seq<Event>)
    requires RaceEventsOnly(es)
    ensures SentIndices(es) == []
  {
    if es != [] {
      NoSentInRaceEvents(es[1..]);
    }
  }

  function SomeRange(lo: nat, hi: nat): seq<Option<nat>>
    requires lo <= hi
  {
    var r := Range(lo, hi);
    seq(|r|, j requires 0 <= j < |r| => Some(r[j]))
  }

  /** A send's own events are race events: no 'sent' and no 'finish-sending' among them. */
  lemma AttemptEvents(script: SendScript)
    ensures SentIndices(Attempted(script, true).emitted) == []
    ensures FinishSending !in Attempted(script, true).emitted
  {
    var es := Attempted(script, true).emitted;
    TimeoutBranchUnreachable(script, true);
    NoSentInRaceEvents(es);
  }

  lemma SomeRangeCons(i: nat, m: nat)
    requires i < m
    ensures SomeRange(i, m) == [Some(i)] + SomeRange(i + 1, m)
  {
  }

  /**
   * The awaited sends go out at indices i, i + 1, ... in ascending order and
   * stop at the first that does not succeed: 'sent' is emitted for exactly the
   * indices before it.
   */
  lemma {:induction false} SendsInOrder(txs: seq<Transaction>, i: nat, network: nat -> SendScript, length: Option<nat>)
    requires i <= |txs|
    ensures SentIndices(SendsFrom(txs, i, network, length).1) == SomeRange(i, FirstUnsuccessful(txs, i, network))
    decreases |txs| - i
  {
    if i < |txs| {
      var a := Attempted(network(i), true);
      AttemptEvents(network(i));
      match a.result {
        case Hangs =>
        case Fails(f) =>
          SentIndicesAppend(a.emitted, [BatchFailure(txs, i)]);
        case Succeeds(id, _) =>
          SendsInOrder(txs, i + 1, network, length);
          var rest := SendsFrom(txs, i + 1, network, length);
          SentIndicesAppend(a.emitted, [Sent(id, Some(i), length)]);
          SentIndicesAppend(a.emitted + [Sent(id, Some(i), length)], rest.1);
          SomeRangeCons(i, FirstUnsuccessful(txs, i, network));
      }
    }
  }

  /** 'finish-sending' is emitted exactly when every awaited send succeeds. */
  lemma {:induction false} FinishSendingExactly(txs: seq<Transaction>, i: nat, network: nat -> SendScript, length: Option<nat>)
    requires i <= |txs|
    ensures FinishSending in SendsFrom(txs, i, network, length).1 <==> FirstUnsuccessful(txs, i, network) == |txs|
    decreases |txs| - i
  {
    if i < |txs| {
      var a := Attempted(network(i), true);
      AttemptEvents(network(i));
      SendsFromStep(txs, i, network, length);
      if a.result.Succeeds? {
        FinishSendingExactly(txs, i + 1, network, length);
        var rest := SendsFrom(txs, i + 1, network, length);
        var es := a.emitted + [Sent(a.result.txId, Some(i), length)] + rest.1;
        assert FinishSending in es <==> FinishSending in rest.1;
      } else if a.result.Fails? {
        assert FinishSending !in a.emitted + [BatchFailure(txs, i)];
      }
    }
  }

  /**
   * How the awaited sends end: 'finish-sending' as the last event when every
   * send succeeded; otherwise the batch rejects with the reason of the first
   * failed send, its last event the batch error naming that transaction and
   * index, or it never returns when that send hangs.
   */
  lemma {:induction false} SendsOutcome(txs: seq<Transaction>, i: nat, network: nat -> SendScript, length: Option<nat>)
    requires i <= |txs|
    ensures var r := SendsFrom(txs, i, network, length);
      var m := FirstUnsuccessful(txs, i, network);
      && (m == |txs| ==> r.0 == BatchFinished([]) && |r.1| > 0 && r.1[|r.1| - 1] == FinishSending)
      && (m < |txs| && Attempted(network(m), true).result.Fails? ==>
            r.0 == BatchFailed(Attempted(network(m), true).result.reason) && |r.1| > 0 && r.1[|r.1| - 1] == BatchFailure(txs, m))
      && (m < |txs| && Attempted(network(m), true).result.Hangs? ==> r.0 == BatchHung)
    decreases |txs| - i
  {
    if i < |txs| {
      var a := Attempted(network(i), true);
      SendsFromStep(txs, i, network, length);
      if a.result.Succeeds? {
        SendsOutcome(txs, i + 1, network, length);
        assert FirstUnsuccessful(txs, i, network) == FirstUnsuccessful(txs, i + 1, network);
        var rest := SendsFrom(txs, i + 1, network, length);
        var es := a.emitted + [Sent(a.result.txId, Some(i), length)] + rest.1;
        if |rest.1| > 0 {
          assert es[|es| - 1] == rest.1[|rest.1| - 1];
        }
      } else {
        assert FirstUnsuccessful(txs, i, network) == i;
      }
    }
  }


  /** Sequential and StopOnFailure dispatch identically: the breakEarly exit is never reached. */
  lemma StopOnFailureIsSequential(txs: seq<Transaction>, network: nat -> SendScript, length: Option<nat>)
    ensures BatchSpec(txs, StopOnFailure, network, length) == BatchSpec(txs, Sequential, network, length)
  {
  }

  /**
   * Parallel does not wait: 'finish-sending' is the only event of the call,
   * and every send is still in flight when it is emitted.
   */
  lemma ParallelDoesNotWait(txs: seq<Transaction>, network: nat -> SendScript, length: Option<nat>)
    ensures BatchSpec(txs, Parallel, network, length).1 == [FinishSending]
    ensures var o := BatchSpec(txs, Parallel, network, length).0;
      o.BatchFinished? && |o.pending| == |txs| && forall j :: 0 <= j < |txs| ==> o.pending[j] == j
  {
  }

  lemma {:induction false} SendsFromEventKinds(txs: seq<Transaction>, i: nat, network: nat -> SendScript, length: Option<nat>)
    ensures forall j :: 0 <= j < |SendsFrom(txs, i, network, length).1| ==> BatchEvent(SendsFrom(txs, i, network, length).1[j])
    decreases |txs| - i
  {
    if i < |txs| {
      var a := Attempted(network(i), true);
      TimeoutBranchUnreachable(network(i), true);
      assert forall j :: 0 <= j < |a.emitted| ==> BatchEvent(a.emitted[j]);
      SendsFromEventKinds(txs, i + 1, network, length);
      var rest := SendsFrom(txs, i + 1, network, length).1;
      assert forall j :: 0 <= j < |rest| ==> BatchEvent(rest[j]);
    }
  }

  lemma BatchEventKinds(txs: seq<Transaction>, sequenceType: SequenceType, network: nat -> SendScript, length: Option<nat>)
    ensures forall j :: 0 <= j < |BatchSpec(txs, sequenceType, network, length).1| ==> BatchEvent(BatchSpec(txs, sequenceType, network, length).1[j])
  {
    if sequenceType != Parallel {
      SendsFromEventKinds(txs, 0, network, length);
    }
  }

  /**
   * What one send of a Parallel batch emits when it settles, after
   * 'finish-sending': the attempt's own events, then 'sent' with its index
   * when it succeeds or, from its catch handler, the batch error naming the
   * transaction and its index when it fails; a send that hangs never settles.
   */
  function CompletionEvents(txs: seq<Transaction>, i: nat, script: SendScript, length: Option<nat>): seq<Event>
    requires i < |txs|
  {
    var a := Attempted(script, true);
    a.emitted +
      match a.result
      case Succeeds(id, _) => [Sent(id, Some(i), length)]
      case Fails(_) => [BatchFailure(txs, i)]
      case Hangs => []
  }

  /**
   * A settled Parallel send reports itself alone: 'sent' for its own index
   * exactly when it succeeds, the batch error for its own position as the
   * last event when it fails, and never 'finish-sending'.
   */
  lemma CompletionReports(txs: seq<Transaction>, i: nat, script: SendScript, length: Option<nat>)
    requires i < |txs|
    ensures var a := Attempted(script, true);
      var es := CompletionEvents(txs, i, script, length);
      && SentIndices(es) == (if a.result.Succeeds? then [Some(i)] else [])
      && FinishSending !in es
      && (a.result.Succeeds? ==> |es| > 0 && es[|es| - 1] == Sent(a.result.txId, Some(i), length))
      && (a.result.Fails? ==> |es| > 0 && es[|es| - 1] == BatchFailure(txs, i))
      && (a.result.Hangs? ==> es == a.emitted)
  {
    var a := Attempted(script, true);
    AttemptEvents(script);
    match a.result {
      case Succeeds(id, _) =>
        SentIndicesAppend(a.emitted, [Sent(id, Some(i), length)]);
      case Fails(_) =>
        SentIndicesAppend(a.emitted, [BatchFailure(txs, i)]);
      case Hangs =>
        assert a.emitted + [] == a.emitted;
    }
  }

  /**
   * The awaited policies emit, for each send, what that send would emit as a
   * Parallel completion; only a success goes on to the next position.
   */
  lemma AwaitedStepIsCompletion(txs: seq<Transaction>, i: nat, network: nat -> SendScript, length: Option<nat>)
    requires i < |txs|
    ensures SendsFrom(txs, i, network, length).1 ==
      CompletionEvents(txs, i, network(i), length) +
      (if SendSucceeds(network, i) then SendsFrom(txs, i + 1, network, length).1 else [])
  {
    SendsFromStep(txs, i, network, length);
    var a := Attempted(network(i), true);
    if a.result.Succeeds? {
      var rest := SendsFrom(txs, i + 1, network, length).1;
      assert a.emitted + [Sent(a.result.txId, Some(i), length)] + rest ==
        (a.emitted + [Sent(a.result.txId, Some(i), length)]) + rest;
    } else {
      assert CompletionEvents(txs, i, network(i), length) + [] == CompletionEvents(txs, i, network(i), length);
    }
  }

  class SendTransaction {
    var wallet: Wallet
    var instructions: InstructionSet
    var signers: SignerSet
    /** `transactions.isSingle`: None until setIsSingleTxn writes it */
    var isSingle: Option<bool>
    var timeoutMs: int
    /** whether `send` or `sendSigned` has attached an emitter */
    var emitterAttached: bool
    /** the events emitted so far */
    var events: seq<Event>

    /** A constructed object: the shape check has passed, so the request is a batch of arrays. */
    predicate Valid()
      reads this
    {
      && isSingle == Some(false)
      && instructions.NestedInstructions? && |instructions.groups| > 0
      && signers.NestedSigners? && |signers.groups| > 0
    }

    /** The field initialisers and the constructor's assignments, before setIsSingleTxn runs. */
    constructor Init(wallet: Wallet, instructions: InstructionSet, signers: SignerSet, timeout: Option<int>)
      ensures this.wallet == wallet && this.instructions == instructions && this.signers == signers
      ensures isSingle == None && timeoutMs == NextTimeout(DefaultTimeout, timeout)
      ensures !emitterAttached && events == []
    {
      this.wallet := wallet;
      this.instructions := instructions;
      this.signers := signers;
      isSingle := None;
      timeoutMs := DefaultTimeout;
      emitterAttached := false;
      events := [];
      new;
      SetTimeout(timeout);
    }

    /** The timeout setter: a falsy value leaves the timeout as it was. */
    method SetTimeout(value: Option<int>)
      modifies this`timeoutMs
      ensures timeoutMs == NextTimeout(old(timeoutMs), value)
    {
      if value.Some? && value.value != 0 {
        timeoutMs := value.value;
      }
    }

    /**
     * setIsSingleTxn: an array sets `isSingle` to true at once, then to false
     * when both first elements are arrays, and throws otherwise.
     */
    method SetIsSingleTxn() returns (err: Option<Failure>)
      modifies this`isSingle
      ensures err == ShapeError(instructions, signers)
      ensures err.None? ==> isSingle == Some(false)
      ensures err == Some(NotEnoughSigners) ==> isSingle == Some(true)
      ensures err == Some(InstructionsMustBeArray) ==> isSingle == old(isSingle)
    {
      if !instructions.InstructionsNotArray? {
        isSingle := Some(true);
        if FirstIsArray(instructions) && FirstSignerIsArray(signers) {
          isSingle := Some(false);
          err := None;
        } else {
          err := Some(NotEnoughSigners);
        }
      } else {
        err := Some(InstructionsMustBeArray);
      }
    }

    /** `new SendTransaction(params)`: a valid object, or the error the shape check throws. */
    static method New(wallet: Wallet, instructions: InstructionSet, signers: SignerSet, timeout: Option<int>)
      returns (r: Result<SendTransaction, Failure>)
      ensures r.Err? <==> ShapeError(instructions, signers).Some?
      ensures r.Err? ==> r.error == ShapeError(instructions, signers).value
      ensures r.Ok? ==> fresh(r.value) && r.value.Valid() && r.value.events == [] && !r.value.emitterAttached
      ensures r.Ok? ==> r.value.timeoutMs == NextTimeout(DefaultTimeout, timeout)
    {
      var t := new SendTransaction.Init(wallet, instructions, signers, timeout);
      var err := t.SetIsSingleTxn();
      if err.Some? {
        return Err(err.value);
      }
      r := Ok(t);
    }

    /** notify: appends the events when an emitter is attached. */
    method Notify(es: seq<Event>)
      modifies this`events
      ensures events == old(events) + Emit(emitterAttached, es)
    {
      if emitterAttached {
        events := events + es;
      }
    }

    /**
     * sendSignedAsync: the attempt's own events, then 'sent' with the index and
     * the number of instruction groups when it succeeds.
     */
    method SendSignedAsync(index: Option<nat>, script: SendScript) returns (r: Confirmed)
      modifies this`events
      ensures r == Attempted(script, true).result
      ensures events == old(events) +
        Emit(emitterAttached, Attempted(script, true).emitted + SentNotice(r, index, InstructionCount(instructions)))
    {
      var a := AttemptSend(script, true);
      Notify(a.emitted);
      r := a.result;
      if r.Succeeds? {
        Notify([Sent(r.txId, index, InstructionCount(instructions))]);
      }
    }

    /**
     * `_batch`: the wallet and block checks, signAll, then the sends by
     * position as BatchSpec states.
     */
    method Batch(sequenceType: SequenceType, block: Option<Block>, reply: WalletReply, network: nat -> SendScript)
      returns (outcome: BatchOutcome)
      requires Valid()
      modifies this`events
      ensures wallet.publicKey.None? ==> outcome == BatchFailed(WalletNotConnected) && events == old(events)
      ensures wallet.publicKey.Some? && block.None? ==> outcome == BatchFailed(NoRecentBlockhash) && events == old(events)
      ensures wallet.publicKey.Some? && block.Some? ==>
        var signed := SignAllResult(wallet, instructions.groups, signers.groups, block.value, reply);
        if signed.Err? then outcome == BatchFailed(signed.error) && events == old(events)
        else
          var (o, es) := BatchSpec(signed.value, sequenceType, network, InstructionCount(instructions));
          outcome == o && events == old(events) + Emit(emitterAttached, es)
    {
      if wallet.publicKey.None? {
        return BatchFailed(WalletNotConnected);
      }
      if block.None? {
        return BatchFailed(NoRecentBlockhash);
      }
      var signed := SignAll(wallet, instructions.groups, signers.groups, block.value, reply);
      if signed.Err? {
        return BatchFailed(signed.error);
      }
      var txs := signed.value;
      var length := InstructionCount(instructions);
      if sequenceType == Parallel {
        // every send is started; none has settled when 'finish-sending' is emitted
        Notify([FinishSending]);
        return BatchFinished(Range(0, |txs|));
      }
      outcome := AwaitEach(txs, network);
    }

    /** The `for` loop of `_batch` in Sequential and StopOnFailure: each send is awaited in turn. */
    method AwaitEach(txs: seq<Transaction>, network: nat -> SendScript)
      returns (outcome: BatchOutcome)
      modifies this`events
      ensures outcome == SendsFrom(txs, 0, network, InstructionCount(instructions)).0
      ensures events == old(events) + Emit(emitterAttached, SendsFrom(txs, 0, network, InstructionCount(instructions)).1)
    {
      var length := InstructionCount(instructions);
      ghost var total := SendsFrom(txs, 0, network, length);
      ghost var base := events;
      var i := 0;
      ghost var emitted: seq<Event> := [];
      assert [] + total.1 == total.1;
      assert base + [] == base;
      while i < |txs|
        invariant 0 <= i <= |txs|
        invariant total == Resumed(txs, i, network, length, emitted)
        invariant events == base + Emit(emitterAttached, emitted)
      {
        var stop, o;
        ghost var tail;
        stop, o, tail := AwaitOne(txs, i, network, base, emitted);
        emitted := emitted + tail;
        if stop {
          return o;
        }
        i := i + 1;
      }
      Notify([FinishSending]);
      EmitExtends(base, emitterAttached, emitted, [FinishSending]);
      outcome := BatchFinished([]);
    }

    /**
     * One awaited send of that loop with its catch handler: stop with the
     * batch outcome when the send hangs or fails, go on when it succeeds.
     * `done` is what the earlier sends emitted on top of `base`.
     */
    method AwaitOne(txs: seq<Transaction>, i: nat, network: nat -> SendScript, ghost base: seq<Event>, ghost done: seq<Event>)
      returns (stop: bool, outcome: BatchOutcome, ghost tail: seq<Event>)
      requires i < |txs|
      requires events == base + Emit(emitterAttached, done)
      modifies this`events
      ensures events == base + Emit(emitterAttached, done + tail)
      ensures stop ==> Resumed(txs, i, network, InstructionCount(instructions), done) == (outcome, done + tail)
      ensures !stop ==>
        Resumed(txs, i, network, InstructionCount(instructions), done) ==
        Resumed(txs, i + 1, network, InstructionCount(instructions), done + tail)
    {
      var length := InstructionCount(instructions);
      var r := SendSignedAsync(Some(i), network(i));
      ghost var a := Attempted(network(i), true);
      SendsFromStep(txs, i, network, length);
      ghost var step := a.emitted + SentNotice(r, Some(i), length);
      EmitExtends(base, emitterAttached, done, step);
      if r.Hangs? {
        assert step == a.emitted;
        stop, outcome, tail := true, BatchHung, step;
      } else if r.Fails? {
        Notify([BatchFailure(txs, i)]);
        EmitExtends(base, emitterAttached, done + step, [BatchFailure(txs, i)]);
        assert step == a.emitted;
        stop, outcome, tail := true, BatchFailed(r.reason), step + [BatchFailure(txs, i)];
        assert done + step + [BatchFailure(txs, i)] == done + tail;
      } else {
        stop, outcome, tail := false, BatchFinished([]), step;
        ghost var rest := SendsFrom(txs, i + 1, network, length).1;
        assert done + (step + rest) == done + step + rest;
      }
    }

    /**
     * One send of a Parallel batch from its start to its settling, with the
     * catch handler `_batch` attaches to it; `Batch` has already returned by
     * then, so each call stands for one completion arriving after 'finish-sending'.
     */
    method ParallelSend(txs: seq<Transaction>, i: nat, script: SendScript) returns (r: Confirmed)
      requires i < |txs|
      modifies this`events
      ensures r == Attempted(script, true).result
      ensures events == old(events) + Emit(emitterAttached, CompletionEvents(txs, i, script, InstructionCount(instructions)))
    {
      var length := InstructionCount(instructions);
      r := SendSignedAsync(Some(i), script);
      ghost var a := Attempted(script, true);
      ghost var step := a.emitted + SentNotice(r, Some(i), length);
      if r.Fails? {
        Notify([BatchFailure(txs, i)]);
        EmitExtends(old(events), emitterAttached, step, [BatchFailure(txs, i)]);
        assert step == a.emitted;
      } else if r.Hangs? {
        assert step == a.emitted + [];
      }
    }

    /**
     * sendAsync: the wallet check, the current block, then `_batch` (single
     * mode cannot be set, see FlatIsRefused); the batch appends only batch events.
     */
    method SendAsync(sequenceType: SequenceType, supplied: Option<Block>, fetched: Result<Block, Failure>,
                     reply: WalletReply, network: nat -> SendScript)
      returns (outcome: BatchOutcome, written: Option<Block>)
      requires Valid()
      modifies this`events
      ensures written == if wallet.publicKey.None? then supplied else BlockAfter(supplied, fetched)
      ensures wallet.publicKey.None? ==> outcome == BatchFailed(WalletNotConnected) && events == old(events)
      ensures wallet.publicKey.Some? && CurrentBlock(supplied, fetched).0.Err? ==>
        outcome == BatchFailed(CurrentBlock(supplied, fetched).0.error) && events == old(events)
      ensures wallet.publicKey.Some? && CurrentBlock(supplied, fetched).0.Ok? ==>
        var signed := SignAllResult(wallet, instructions.groups, signers.groups, CurrentBlock(supplied, fetched).0.value, reply);
        if signed.Err? then outcome == BatchFailed(signed.error) && events == old(events)
        else
          var (o, es) := BatchSpec(signed.value, sequenceType, network, InstructionCount(instructions));
          outcome == o && events == old(events) + Emit(emitterAttached, es)
      ensures |events| >= |old(events)| && events[..|old(events)|] == old(events)
      ensures forall j :: |old(events)| <= j < |events| ==> BatchEvent(events[j])
    {
      written := supplied;
      if wallet.publicKey.None? {
        return BatchFailed(WalletNotConnected), written;
      }
      var (block, _) := CurrentBlock(supplied, fetched);
      if block.Err? {
        return BatchFailed(block.error), written;
      }
      written := Some(block.value);
      outcome := Batch(sequenceType, Some(block.value), reply, network);
      ghost var signed := SignAllResult(wallet, instructions.groups, signers.groups, block.value, reply);
      if signed.Ok? {
        BatchEventKinds(signed.value, sequenceType, network, InstructionCount(instructions));
      }
      assert events[..|old(events)|] == old(events);
    }

    /**
     * send: attaches the emitter, then sendAsync; a rejection is emitted as
     * 'error', and 'finally' follows unless the call never settles.
     */
    method Send(sequenceType: SequenceType, supplied: Option<Block>, fetched: Result<Block, Failure>,
                reply: WalletReply, network: nat -> SendScript)
      returns (outcome: BatchOutcome, written: Option<Block>)
      requires Valid()
      modifies this`events, this`emitterAttached
      ensures emitterAttached
      ensures written == if wallet.publicKey.None? then supplied else BlockAfter(supplied, fetched)
      ensures wallet.publicKey.None? ==>
        outcome == BatchFailed(WalletNotConnected) && events == old(events) + [Error(Thrown(WalletNotConnected), None), Finally]
      ensures CurrentBlock(supplied, fetched).0.Err? && wallet.publicKey.Some? ==>
        outcome == BatchFailed(CurrentBlock(supplied, fetched).0.error) &&
        events == old(events) + [Error(Thrown(outcome.failure), None), Finally]
      ensures wallet.publicKey.Some? && CurrentBlock(supplied, fetched).0.Ok? ==>
        var signed := SignAllResult(wallet, instructions.groups, signers.groups, CurrentBlock(supplied, fetched).0.value, reply);
        if signed.Err? then outcome == BatchFailed(signed.error) && events == old(events) + Closing(outcome)
        else
          var (o, es) := BatchSpec(signed.value, sequenceType, network, InstructionCount(instructions));
          outcome == o && events == old(events) + es + Closing(outcome)
      ensures SendLog(old(events), events, outcome)
    {
      emitterAttached := true;
      outcome, written := SendAsync(sequenceType, supplied, fetched, reply, network);
      ghost var mid := events;
      if outcome.BatchFailed? {
        Notify([Error(Thrown(outcome.failure), None)]);
      }
      if !outcome.BatchHung? {
        Notify([Finally]);
      }
      assert events == mid + Closing(outcome);
      ClosingEvents(old(events), mid, outcome);
    }
  }
}
