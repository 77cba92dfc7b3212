/**
 * The confirmation decision of sendSignedAsync and requestSignature.
 *
 * requestSignature races three watchers over one `done` flag: the timer, the
 * websocket signature callback and the status poll. The model replaces the
 * asynchronous world by the ORDER in which their results arrive: an arrival
 * sequence is folded through the same decisions the callbacks make. Once the
 * promise has settled, requestSignature has returned (its handlers run as
 * microtasks, before any further network or timer callback), so later
 * arrivals are not observed. The timer is always armed, so when the arrivals
 * run out unsettled it fires.
 */
module Confirmation {
  import opened Types

  /** One callback run, in the order the event loop delivers them. */
  datatype Arrival =
      /** the setTimeout callback */
    | TimerFired
      /** the onSignature callback with `result.err` and `context.slot` */
    | SocketNotified(err: Option<TxError>, slot: nat)
      /** a getSignatureStatuses answer: `value[0]`, which may be null */
    | PollAnswered(status: Option<SignatureStatus>)
      /** a getSignatureStatuses call that threw */
    | PollFailed

  /** What one poll answer means for the wait. */
  datatype PollVerdict = KeepWaiting | EndRejected(err: TxError) | EndResolved

  /**
   * The per-poll classifier: a null status and a status without confirmations
   * (zero, or absent as for a finalized transaction) keep waiting; an err ends
   * the wait rejected; a positive confirmation count ends it resolved.
   */
  function ClassifyPoll(status: Option<SignatureStatus>): (v: PollVerdict)
    ensures status.None? ==> v == KeepWaiting
    ensures v.EndRejected? <==> status.Some? && status.value.err.Some?
    ensures v.EndRejected? ==> v.err == status.value.err.value
    ensures v.EndResolved? <==> status.Some? && status.value.err.None? && status.value.confirmations.Some? && status.value.confirmations.value > 0
  {
    match status
    case None => KeepWaiting
    case Some(s) =>
      if s.err.Some? then EndRejected(s.err.value)
      else if s.confirmations.None? || s.confirmations.value == 0 then KeepWaiting
      else EndResolved
  }

  /** How the awaited promise has settled so far. */
  datatype Settlement = Unsettled | Resolved | Rejected(reason: TxError)

  /** The locals of requestSignature (`done`, `status`), the promise's settlement and the events emitted. */
  datatype Watch = Watch(done: bool, settled: Settlement, status: Option<SignatureStatus>, emitted: seq<Event>)

  const InitialStatus: SignatureStatus := SignatureStatus(0, Some(0), None)

  const Start: Watch := Watch(false, Unsettled, Some(InitialStatus), [])

  /** The 'signature' event: class/Providers.ts emits it bare, class/TransactionProvider.ts with txId and slot. */
  function SignatureNotice(txId: string, slot: nat, detailed: bool): Event
  {
    if detailed then Signature(Some(txId), Some(slot)) else Signature(None, None)
  }

  /** The `.catch` handler: a timeout marks a non-null status with `{timeout: true}`; every rejection emits 'error'. */
  function Rejection(w: Watch, reason: TxError): Watch
  {
    var status := if reason.TimeoutMarker? && w.status.Some? then Some(w.status.value.(err := Some(TimeoutMarker))) else w.status;
    w.(settled := Rejected(reason), status := status, emitted := w.emitted + [Error(ChainError(reason), None)])
  }

  /** One callback run. */
  function Step(w: Watch, a: Arrival, txId: string, detailed: bool): Watch
  {
    if !w.settled.Unsettled? then w
    else match a
      case TimerFired =>
        if w.done then w else Rejection(w.(done := true), TimeoutMarker)
      case SocketNotified(err, slot) =>
        var w1 := w.(done := true, status := Some(SignatureStatus(slot, Some(0), err)));
        if err.Some? then Rejection(w1.(emitted := w1.emitted + [Error(ChainError(err.value), None)]), err.value)
        else w1.(settled := Resolved, emitted := w1.emitted + [SignatureNotice(txId, slot, detailed)])
      case PollAnswered(s) =>
        var w1 := w.(status := s);
        if w.done then w1
        else (match ClassifyPoll(s)
          case KeepWaiting => w1
          case EndRejected(e) => Rejection(w1.(done := true), e)
          case EndResolved => w1.(done := true, settled := Resolved))
      case PollFailed => w
  }

  /** What requestSignature does: never return, or return the status after emitting these events. */
  datatype RaceResult = Hung | Returned(status: Option<SignatureStatus>, emitted: seq<Event>)

  /**
   * The rest of the race from watch `w` with arrivals `s` still to come: a
   * settled promise returns at once; when nothing else arrives the armed timer
   * fires.
   */
  function RaceFrom(w: Watch, s: seq<Arrival>, txId: string, detailed: bool): RaceResult
    decreases |s|
  {
    if !w.settled.Unsettled? then Returned(w.status, w.emitted)
    else if s == [] then
      var last := Step(w, TimerFired, txId, detailed);
      if last.settled.Unsettled? then Hung else Returned(last.status, last.emitted)
    else RaceFrom(Step(w, s[0], txId, detailed), s[1..], txId, detailed)
  }

  /**
   * The race as a whole. If onSignature throws, `done` is set without settling
   * anything: the poll loop never starts, the timer does nothing, and the
   * promise never settles.
   */
  function Race(subscribeThrows: bool, arrivals: seq<Arrival>, txId: string, detailed: bool): RaceResult
  {
    if subscribeThrows then Hung else RaceFrom(Start, arrivals, txId, detailed)
  }

  // ---------------------------------------------------------------------------
  // An independent account of the race: the first terminal arrival wins.

  /** An arrival that ends the wait when nothing has ended it yet. */
  predicate Terminal(a: Arrival)
  {
    a.TimerFired? || a.SocketNotified? || (a.PollAnswered? && !ClassifyPoll(a.status).KeepWaiting?)
  }

  /** The position of the first terminal arrival, or |s| when there is none. */
  function FirstTerminal(s: seq<Arrival>): (k: nat)
    ensures k <= |s|
    ensures k < |s| ==> Terminal(s[k])
    ensures forall j :: 0 <= j < k ==> !Terminal(s[j])
  {
    if s == [] then 0
    else if Terminal(s[0]) then 0
    else 1 + FirstTerminal(s[1..])
  }

  /** The status the polls leave behind, starting from `st`: the last polled answer, or `st` when there is none. */
  function LastPolled(st: Option<SignatureStatus>, s: seq<Arrival>): Option<SignatureStatus>
  {
    if s == [] then st
    else if s[|s| - 1].PollAnswered? then s[|s| - 1].status
    else LastPolled(st, s[..|s| - 1])
  }

  /** What a terminal arrival makes requestSignature return, given the status before it. */
  function Verdict(a: Arrival, before: Option<SignatureStatus>, txId: string, detailed: bool): RaceResult
    requires Terminal(a)
  {
    match a
    case TimerFired =>
      Returned(if before.Some? then Some(before.value.(err := Some(TimeoutMarker))) else None,
               [Error(ChainError(TimeoutMarker), None)])
    case SocketNotified(err, slot) =>
      if err.Some? then
        Returned(Some(SignatureStatus(slot, Some(0), err)),
                 [Error(ChainError(err.value), None), Error(ChainError(err.value), None)])
      else Returned(Some(SignatureStatus(slot, Some(0), None)), [SignatureNotice(txId, slot, detailed)])
    case PollAnswered(s) =>
      if s.value.err.Some? then Returned(s, [Error(ChainError(s.value.err.value), None)])
      else Returned(s, [])
  }

  /** A terminal arrival on a quiet watch settles it as Verdict says. */
  lemma SettleOnTerminal(st: Option<SignatureStatus>, a: Arrival, txId: string, detailed: bool)
    requires Terminal(a)
    ensures var w := Step(Watch(false, Unsettled, st, []), a, txId, detailed);
      !w.settled.Unsettled? && Verdict(a, st, txId, detailed) == Returned(w.status, w.emitted)
  {
  }

  /** A non-terminal arrival on a quiet watch only updates the status, as a poll answer does. */
  lemma StayQuiet(st: Option<SignatureStatus>, a: Arrival, txId: string, detailed: bool)
    requires !Terminal(a)
    ensures Step(Watch(false, Unsettled, st, []), a, txId, detailed) ==
            Watch(false, Unsettled, LastPolled(st, [a]), [])
  {
  }

  /** Reading the last polled status from the front: the first arrival moves the starting status. */
  lemma {:induction false} LastPolledCons(st: Option<SignatureStatus>, s: seq<Arrival>)
    requires s != []
    ensures LastPolled(st, s) == LastPolled(LastPolled(st, [s[0]]), s[1..])
  {
    if |s| > 1 {
      var p := s[..|s| - 1];
      assert p[0] == s[0];
      assert p[1..] == s[1..][..|s[1..]| - 1];
      LastPolledCons(st, p);
    } else {
      assert s == [s[0]];
    }
  }

  /** From a quiet watch, the race returns what the first terminal arrival decides. */
  lemma {:induction false} QuietRace(st: Option<SignatureStatus>, s: seq<Arrival>, txId: string, detailed: bool)
    ensures var t := s + [TimerFired];
      var k := FirstTerminal(t);
      && k < |t|
      && RaceFrom(Watch(false, Unsettled, st, []), s, txId, detailed) == Verdict(t[k], LastPolled(st, t[..k]), txId, detailed)
    decreases |s|
  {
    var t := s + [TimerFired];
    var w := Watch(false, Unsettled, st, []);
    assert Terminal(t[|t| - 1]);
    if s == [] {
      SettleOnTerminal(st, TimerFired, txId, detailed);
    } else if Terminal(s[0]) {
      assert t[0] == s[0];
      SettleOnTerminal(st, s[0], txId, detailed);
    } else {
      assert t[0] == s[0];
      StayQuiet(st, s[0], txId, detailed);
      var st' := LastPolled(st, [s[0]]);
      QuietRace(st', s[1..], txId, detailed);
      var k := FirstTerminal(t);
      assert t[1..] == s[1..] + [TimerFired];
      assert k == 1 + FirstTerminal(t[1..]);
      assert t[k] == t[1..][k - 1];
      assert t[..k][1..] == t[1..][..k - 1];
      assert t[..k][0] == s[0];
      LastPolledCons(st, t[..k]);
    }
  }

  /**
   * The first terminal event wins: unless onSignature throws, requestSignature
   * returns exactly what the first terminal arrival (the timer when nothing
   * else ends the wait) decides, and everything after it is ignored.
   */
  lemma FirstTerminalWins(arrivals: seq<Arrival>, txId: string, detailed: bool)
    ensures var s := arrivals + [TimerFired];
      var k := FirstTerminal(s);
      && k < |s|
      && Race(false, arrivals, txId, detailed) == Verdict(s[k], LastPolled(Some(InitialStatus), s[..k]), txId, detailed)
  {
    QuietRace(Some(InitialStatus), arrivals, txId, detailed);
  }

  /** Race results only ever carry 'error' and 'signature' events. */
  predicate RaceEventsOnly(es: seq<Event>)
  {
    forall j :: 0 <= j < |es| ==> es[j].Error? || es[j].Signature?
  }

  /** Unless onSignature throws, requestSignature returns, and it emits only 'error' and 'signature' events. */
  lemma RaceReturnsUnlessSubscribeThrows(arrivals: seq<Arrival>, txId: string, detailed: bool)
    ensures Race(false, arrivals, txId, detailed).Returned?
    ensures RaceEventsOnly(Race(false, arrivals, txId, detailed).emitted)
    ensures Race(true, arrivals, txId, detailed) == Hung
  {
    FirstTerminalWins(arrivals, txId, detailed);
  }

  /** The errors the network reports are its own err objects, never the timer's `{timeout: true}`. */
  predicate FromNetwork(a: Arrival)
  {
    match a
    case SocketNotified(err, _) => err != Some(TimeoutMarker)
    case PollAnswered(s) => s.None? || s.value.err != Some(TimeoutMarker)
    case _ => true
  }

  /**
   * The timer ends the race exactly when every socket callback and every
   * deciding poll answer comes after a timer callback; it then emits one
   * 'error' with `{timeout: true}` and marks a non-null status with it.
   */
  lemma {:induction false} TimeoutOnlyWhenNothingDecided(arrivals: seq<Arrival>, txId: string, detailed: bool)
    requires forall j :: 0 <= j < |arrivals| ==> FromNetwork(arrivals[j])
    ensures var r := Race(false, arrivals, txId, detailed);
      && r.Returned?
      && ((r.emitted == [Error(ChainError(TimeoutMarker), None)]) <==>
          (forall j :: 0 <= j < |arrivals| && Terminal(arrivals[j]) && !arrivals[j].TimerFired? ==>
             exists i :: 0 <= i < j && arrivals[i].TimerFired?))
      && (r.emitted == [Error(ChainError(TimeoutMarker), None)] && r.status.Some? ==> r.status.value.err == Some(TimeoutMarker))
  {
    FirstTerminalWins(arrivals, txId, detailed);
    var s := arrivals + [TimerFired];
    var k := FirstTerminal(s);
    if k < |arrivals| {
      assert s[k] == arrivals[k];
    }
    if s[k].TimerFired? {
      forall j | 0 <= j < |arrivals| && Terminal(arrivals[j]) && !arrivals[j].TimerFired?
        ensures exists i :: 0 <= i < j && arrivals[i].TimerFired?
      {
        assert s[j] == arrivals[j];
        assert arrivals[k].TimerFired?;
      }
    } else {
      forall i | 0 <= i < k
        ensures !arrivals[i].TimerFired?
      {
        assert s[i] == arrivals[i];
      }
    }
  }
  /** A socket rejection is reported twice: by the callback and by the `.catch` handler. */
  lemma SocketRejectionReportedTwice(pre: seq<Arrival>, e: TxError, slot: nat, post: seq<Arrival>, txId: string, detailed: bool)
    requires forall j :: 0 <= j < |pre| ==> !Terminal(pre[j])
    ensures Race(false, pre + [SocketNotified(Some(e), slot)] + post, txId, detailed) ==
            Returned(Some(SignatureStatus(slot, Some(0), Some(e))), [Error(ChainError(e), None), Error(ChainError(e), None)])
  {
    var arrivals := pre + [SocketNotified(Some(e), slot)] + post;
    FirstTerminalWins(arrivals, txId, detailed);
    var s := arrivals + [TimerFired];
    assert s[|pre|] == SocketNotified(Some(e), slot);
    assert forall j :: 0 <= j < |pre| ==> s[j] == pre[j];
    assert FirstTerminal(s) == |pre|;
  }

  // ---------------------------------------------------------------------------
  // Failure diagnosis from the simulation's logs.

  predicate IsProgramLog(line: string)
  {
    |ProgramLogPrefix| <= |line| && line[..|ProgramLogPrefix|] == ProgramLogPrefix
  }

  /** The position of the last line that starts with 'Program log: ', searching from the end. */
  function LastProgramLog(logs: seq<string>): (r: Option<nat>)
    ensures r.Some? ==> r.value < |logs| && IsProgramLog(logs[r.value])
    ensures r.Some? ==> forall j :: r.value < j < |logs| ==> !IsProgramLog(logs[j])
    ensures r.None? ==> forall j :: 0 <= j < |logs| ==> !IsProgramLog(logs[j])
  {
    if logs == [] then None
    else if IsProgramLog(logs[|logs| - 1]) then Some(|logs| - 1)
    else LastProgramLog(logs[..|logs| - 1])
  }

  /** The reverse scan of sendSignedAsync, `for (i = logs.length - 1; i >= 0; --i)`. */
  method ScanLogs(logs: seq<string>) returns (found: Option<nat>)
    ensures found == LastProgramLog(logs)
    ensures found.Some? ==> found.value < |logs| && IsProgramLog(logs[found.value])
    ensures found.Some? ==> forall j :: found.value < j < |logs| ==> !IsProgramLog(logs[j])
    ensures found.None? ==> forall j :: 0 <= j < |logs| ==> !IsProgramLog(logs[j])
  {
    var i := |logs|;
    while i > 0
      invariant 0 <= i <= |logs|
      invariant forall j :: i <= j < |logs| ==> !IsProgramLog(logs[j])
      invariant LastProgramLog(logs) == LastProgramLog(logs[..i])
    {
      var line := logs[i - 1];
      assert logs[..i][..i - 1] == logs[..i - 1];
      if |ProgramLogPrefix| <= |line| && line[..|ProgramLogPrefix|] == ProgramLogPrefix {
        return Some(i - 1);
      }
      i := i - 1;
    }
    found := None;
  }

  /** A simulation: it threw, or it reports an optional err (as JSON text) and optional logs. */
  datatype Simulation = SimulationThrew | Simulated(err: Option<string>, logs: Option<seq<string>>)

  /**
   * The diagnosis after a failed confirmation: with a simulation err, the rest
   * of the last 'Program log: ' line, else the JSON of the err; None (fall
   * through to the success return) when the simulation threw or reports no err.
   */
  function Diagnose(sim: Simulation): (r: Option<Failure>)
    ensures sim.SimulationThrew? || sim.err.None? ==> r.None?
    ensures r.Some? ==> r.value.ProgramLogFailure? || r.value == SimulationFailure(sim.err.value)
    ensures r.Some? && r.value.ProgramLogFailure? ==>
      && sim.logs.Some?
      && LastProgramLog(sim.logs.value).Some?
      && var line := sim.logs.value[LastProgramLog(sim.logs.value).value];
         ProgramLogPrefix + r.value.detail == line
    ensures sim.Simulated? && sim.err.Some? && (sim.logs.None? || LastProgramLog(sim.logs.value).None?) ==>
      r == Some(SimulationFailure(sim.err.value))
    ensures r.Some? || sim.SimulationThrew? || sim.err.None?
  {
    match sim
    case SimulationThrew => None
    case Simulated(err, logs) =>
      if err.None? then None
      else if logs.Some? && LastProgramLog(logs.value).Some? then
        var line := logs.value[LastProgramLog(logs.value).value];
        assert line == ProgramLogPrefix + line[|ProgramLogPrefix|..];
        Some(ProgramLogFailure(line[|ProgramLogPrefix|..]))
      else Some(SimulationFailure(err.value))
  }

  // ---------------------------------------------------------------------------
  // The outcome of one sendSignedAsync call before its bookkeeping.

  /** The first sendRawTransaction: it rejects, or yields the transaction id. */
  datatype Broadcast = BroadcastRejected(message: string) | Broadcasted(txId: string)

  /** Everything the network does for one send, in the model's terms. */
  datatype SendScript = SendScript(broadcast: Broadcast, subscribeThrows: bool, arrivals: seq<Arrival>, simulation: Simulation)

  /** How a send settles: never, rejected, or resolved with `{txId, slot}`. */
  datatype Confirmed = Hangs | Fails(reason: Failure) | Succeeds(txId: string, slot: nat)

  datatype Attempt = Attempt(result: Confirmed, emitted: seq<Event>)

  /**
   * After requestSignature returned: a status without err resolves with its
   * slot; a status with err or a null status (whose `.err` throws a TypeError)
   * goes to the diagnosis, and when that finds nothing the send still resolves,
   * with slot 0.
   */
  function AfterConfirmation(txId: string, status: Option<SignatureStatus>, sim: Simulation): Confirmed
  {
    if status.Some? && status.value.err.None? then Succeeds(txId, status.value.slot)
    else match Diagnose(sim)
      case Some(f) => Fails(f)
      case None => Succeeds(txId, 0)
  }

  function Attempted(script: SendScript, detailed: bool): Attempt
  {
    match script.broadcast
    case BroadcastRejected(m) => Attempt(Fails(BroadcastFailed(m)), [])
    case Broadcasted(txId) =>
      match Race(script.subscribeThrows, script.arrivals, txId, detailed)
      case Hung => Attempt(Hangs, [])
      case Returned(status, emitted) => Attempt(AfterConfirmation(txId, status, script.simulation), emitted)
  }

  /**
   * requestSignature never rejects (its `.catch` swallows every rejection), so
   * the `err.timeout` branch of sendSignedAsync is never taken: no 'timeout'
   * event and no 'Timed out awaiting confirmation' error, and the send only
   * emits what the race emitted.
   */
  lemma {:induction false} TimeoutBranchUnreachable(script: SendScript, detailed: bool)
    ensures var a := Attempted(script, detailed);
      && a.result != Fails(ConfirmationTimedOut)
      && RaceEventsOnly(a.emitted)
      && (forall j :: 0 <= j < |a.emitted| ==> !a.emitted[j].Timeout?)
  {
    if script.broadcast.Broadcasted? && !script.subscribeThrows {
      RaceReturnsUnlessSubscribeThrows(script.arrivals, script.broadcast.txId, detailed);
    }
  }

  /** A confirmation without err resolves the send with the status slot. */
  lemma ConfirmedWithSlot(txId: string, s: SignatureStatus, sim: Simulation)
    requires s.err.None?
    ensures AfterConfirmation(txId, Some(s), sim) == Succeeds(txId, s.slot)
  {
  }

  /**
   * A send whose wait times out is still reported as sent, with slot 0, when the
   * simulation throws or reports no err.
   */
  lemma {:induction false} TimedOutButSent(txId: string, arrivals: seq<Arrival>, sim: Simulation, detailed: bool)
    requires forall j :: 0 <= j < |arrivals| ==> !Terminal(arrivals[j])
    requires sim.SimulationThrew? || sim.err.None?
    ensures Attempted(SendScript(Broadcasted(txId), false, arrivals, sim), detailed) ==
            Attempt(Succeeds(txId, 0), [Error(ChainError(TimeoutMarker), None)])
  {
    FirstTerminalWins(arrivals, txId, detailed);
    var s := arrivals + [TimerFired];
    assert forall j :: 0 <= j < |arrivals| ==> s[j] == arrivals[j];
    assert FirstTerminal(s) == |arrivals|;
  }

  /** A failed confirmation with a failed simulation is diagnosed from the last 'Program log: ' line. */
  lemma {:induction false} FailureDiagnosedFromLogs(txId: string, status: Option<SignatureStatus>, e: string, logs: seq<string>, i: nat)
    requires status.None? || status.value.err.Some?
    requires i < |logs| && IsProgramLog(logs[i])
    requires forall j :: i < j < |logs| ==> !IsProgramLog(logs[j])
    ensures AfterConfirmation(txId, status, Simulated(Some(e), Some(logs))) ==
            Fails(ProgramLogFailure(logs[i][|ProgramLogPrefix|..]))
  {
    var k := LastProgramLog(logs);
    assert k == Some(i);
  }

  // ---------------------------------------------------------------------------
  // The imperative form: requestSignature's callbacks and sendSignedAsync's decision.

  /** The watch once the `.catch` handler has run on a rejection. */
  function Caught(w: Watch): Watch
  {
    if w.settled.Rejected? then Rejection(w, w.settled.reason) else w
  }

  /**
   * requestSignature, callback by callback: each arrival updates `done` and
   * `status` as its callback does and may settle the promise; once it has
   * settled, the `.catch` handler runs and the status is returned.
   */
  method RequestSignature(txId: string, subscribeThrows: bool, arrivals: seq<Arrival>, detailed: bool)
    returns (r: RaceResult)
    ensures r == Race(subscribeThrows, arrivals, txId, detailed)
    ensures r.Hung? <==> subscribeThrows
  {
    if subscribeThrows {
      return Hung;
    }
    var done := false;
    var settled := Unsettled;
    var status: Option<SignatureStatus> := Some(InitialStatus);
    var emitted: seq<Event> := [];
    var i := 0;
    while i < |arrivals| && settled.Unsettled?
      invariant 0 <= i <= |arrivals|
      invariant settled.Unsettled? ==> !done
      invariant RaceFrom(Caught(Watch(done, settled, status, emitted)), arrivals[i..], txId, detailed) ==
                RaceFrom(Start, arrivals, txId, detailed)
    {
      assert arrivals[i..][1..] == arrivals[i + 1..];
      match arrivals[i] {
        case TimerFired =>
          done := true;
          settled := Rejected(TimeoutMarker);
        case SocketNotified(err, slot) =>
          done := true;
          status := Some(SignatureStatus(slot, Some(0), err));
          if err.Some? {
            emitted := emitted + [Error(ChainError(err.value), None)];
            settled := Rejected(err.value);
          } else {
            emitted := emitted + [SignatureNotice(txId, slot, detailed)];
            settled := Resolved;
          }
        case PollAnswered(answer) =>
          status := answer;
          if answer.Some? {
            if answer.value.err.Some? {
              done := true;
              settled := Rejected(answer.value.err.value);
            } else if answer.value.confirmations.Some? && answer.value.confirmations.value != 0 {
              done := true;
              settled := Resolved;
            }
          }
        case PollFailed =>
      }
      i := i + 1;
    }
    if settled.Unsettled? {
      assert arrivals[i..] == [];
      // the armed timer fires
      done := true;
      settled := Rejected(TimeoutMarker);
    }
    if settled.Rejected? {
      // the `.catch` handler
      if settled.reason.TimeoutMarker? && status.Some? {
        status := Some(status.value.(err := Some(TimeoutMarker)));
      }
      emitted := emitted + [Error(ChainError(settled.reason), None)];
    }
    r := Returned(status, emitted);
  }

  /**
   * sendSignedAsync up to its bookkeeping: broadcast, wait for the confirmation,
   * and on a failed or unreadable confirmation diagnose from the simulation.
   */
  method AttemptSend(script: SendScript, detailed: bool) returns (a: Attempt)
    ensures a == Attempted(script, detailed)
  {
    if script.broadcast.BroadcastRejected? {
      return Attempt(Fails(BroadcastFailed(script.broadcast.message)), []);
    }
    var txId := script.broadcast.txId;
    var race := RequestSignature(txId, script.subscribeThrows, script.arrivals, detailed);
    if race.Hung? {
      return Attempt(Hangs, []);
    }
    var confirmation := race.status;
    if confirmation.Some? && confirmation.value.err.None? {
      return Attempt(Succeeds(txId, confirmation.value.slot), race.emitted);
    }
    var sim := script.simulation;
    if sim.Simulated? && sim.err.Some? {
      if sim.logs.Some? {
        var found := ScanLogs(sim.logs.value);
        if found.Some? {
          var line := sim.logs.value[found.value];
          return Attempt(Fails(ProgramLogFailure(line[|ProgramLogPrefix|..])), race.emitted);
        }
      }
      return Attempt(Fails(SimulationFailure(sim.err.value)), race.emitted);
    }
    a := Attempt(Succeeds(txId, 0), race.emitted);
  }
}
