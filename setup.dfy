/**
 * Pieces both SendTransaction classes share word for word: the request-shape
 * test of setIsSingleTxn, the default timeout, the length reported in 'sent'
 * events and the choice getCurrentBlock makes.
 */
module Setup {
  import opened Types

  const DefaultTimeout: int := 30000

  /** `Array.isArray(i[0])`: only a non-empty array of arrays has an array first element. */
  predicate FirstIsArray(i: InstructionSet)
  {
    i.NestedInstructions? && |i.groups| > 0
  }

  /** `Array.isArray(s[0])` for the signer set. */
  predicate FirstSignerIsArray(s: SignerSet)
  {
    s.NestedSigners? && |s.groups| > 0
  }

  /**
   * The error setIsSingleTxn throws, if any: a non-array is refused first, and an
   * array is accepted only when its first element and the signer set's first
   * element are arrays.
   */
  function ShapeError(i: InstructionSet, s: SignerSet): (r: Option<Failure>)
    ensures r.None? <==> FirstIsArray(i) && FirstSignerIsArray(s)
    ensures i.InstructionsNotArray? ==> r == Some(InstructionsMustBeArray)
    ensures !i.InstructionsNotArray? && r.Some? ==> r == Some(NotEnoughSigners)
  {
    if i.InstructionsNotArray? then Some(InstructionsMustBeArray)
    else if FirstIsArray(i) && FirstSignerIsArray(s) then None
    else Some(NotEnoughSigners)
  }

  /** Every flat instruction array is refused, whatever the signers: single mode cannot be constructed. */
  lemma FlatIsRefused(instructions: seq<Instruction>, s: SignerSet)
    ensures ShapeError(FlatInstructions(instructions), s) == Some(NotEnoughSigners)
    ensures Message(NotEnoughSigners) == Some("TransactionProvider: Multiple instructions given but not enough signers set.")
  {
  }

  /** `this.transactions.instructions.length`, the total reported by 'sent' (empty groups included). */
  function InstructionCount(i: InstructionSet): (r: Option<nat>)
    ensures i.NestedInstructions? ==> r == Some(|i.groups|)
    ensures r.None? <==> i.InstructionsNotArray?
  {
    match i
    case FlatInstructions(xs) => Some(|xs|)
    case NestedInstructions(gs) => Some(|gs|)
    case InstructionsNotArray => None
  }

  /**
   * getCurrentBlock: the supplied block when there is one, otherwise what the
   * network returns; the second component says whether the network was asked.
   */
  function CurrentBlock(supplied: Option<Block>, fetched: Result<Block, Failure>): (r: (Result<Block, Failure>, bool))
    ensures r.1 <==> supplied.None?
    ensures supplied.Some? ==> r.0 == Ok(supplied.value)
    ensures supplied.None? ==> r.0 == fetched
  {
    match supplied
    case Some(b) => (Ok(b), false)
    case None => (fetched, true)
  }

  /** A supplied block makes the network's answer irrelevant. */
  lemma SuppliedBlockIgnoresNetwork(b: Block, f1: Result<Block, Failure>, f2: Result<Block, Failure>)
    ensures CurrentBlock(Some(b), f1) == CurrentBlock(Some(b), f2)
  {
  }

  /**
   * The options' `block` after sendAsync has assigned getCurrentBlock's result
   * to it: the block used, once one was obtained; a failed fetch rejects before
   * the assignment and leaves the options as they were.
   */
  function BlockAfter(supplied: Option<Block>, fetched: Result<Block, Failure>): (r: Option<Block>)
    ensures CurrentBlock(supplied, fetched).0.Ok? ==> r == Some(CurrentBlock(supplied, fetched).0.value)
    ensures CurrentBlock(supplied, fetched).0.Err? ==> r == supplied && r.None?
  {
    match CurrentBlock(supplied, fetched).0
    case Ok(b) => Some(b)
    case Err(_) => supplied
  }

  /**
   * Options object reused for a second send: once a block was obtained, the
   * second call does not ask the network and works on that same block.
   */
  lemma ReusedOptionsKeepBlock(supplied: Option<Block>, f1: Result<Block, Failure>, f2: Result<Block, Failure>)
    requires CurrentBlock(supplied, f1).0.Ok?
    ensures CurrentBlock(BlockAfter(supplied, f1), f2) == (CurrentBlock(supplied, f1).0, false)
  {
  }

  /** The timeout setter: a falsy value (absent or 0) leaves the timeout unchanged. */
  function NextTimeout(current: int, value: Option<int>): (r: int)
    ensures value.None? ==> r == current
    ensures value == Some(0) ==> r == current
    ensures value.Some? && value.value != 0 ==> r == value.value
  {
    if value.Some? && value.value != 0 then value.value else current
  }

  /** The events `notify` lets through: all of them once an emitter is attached, none before. */
  function Emit(attached: bool, es: seq<Event>): seq<Event>
  {
    if attached then es else []
  }

  lemma EmitAppend(attached: bool, a: seq<Event>, b: seq<Event>)
    ensures Emit(attached, a + b) == Emit(attached, a) + Emit(attached, b)
  {
  }

  /** Emitting `more` after `done` has been emitted on top of `base`. */
  lemma EmitExtends(base: seq<Event>, attached: bool, done: seq<Event>, more: seq<Event>)
    ensures base + Emit(attached, done) + Emit(attached, more) == base + Emit(attached, done + more)
  {
    EmitAppend(attached, done, more);
  }

  /** What `send` emits once sendAsync settles: 'error' for a rejection, then 'finally' unless it never settles. */
  function Closing(outcome: BatchOutcome): seq<Event>
  {
    match outcome
    case BatchFailed(f) => [Error(Thrown(f), None), Finally]
    case BatchHung => []
    case BatchFinished(_) => [Finally]
  }

  /**
   * The events of one `send` on top of `base`: `base` is kept as a prefix,
   * 'finally' comes last exactly when the call settles and nowhere else, and
   * a rejection is emitted as 'error' just before it.
   */
  predicate SendLog(base: seq<Event>, es: seq<Event>, outcome: BatchOutcome)
  {
    && |es| >= |base| && es[..|base|] == base
    && (outcome.BatchHung? ==> forall j :: |base| <= j < |es| ==> es[j] != Finally)
    && (!outcome.BatchHung? ==> |es| > |base| && es[|es| - 1] == Finally)
    && (outcome.BatchFailed? ==> |es| >= |base| + 2 && es[|es| - 2] == Error(Thrown(outcome.failure), None))
  }

  /** Batch events on top of `base`, then the closing events, make a SendLog. */
  lemma ClosingEvents(base: seq<Event>, mid: seq<Event>, outcome: BatchOutcome)
    requires |mid| >= |base| && mid[..|base|] == base
    requires forall j :: |base| <= j < |mid| ==> BatchEvent(mid[j])
    ensures SendLog(base, mid + Closing(outcome), outcome)
  {
    var es := mid + Closing(outcome);
    assert es[..|base|] == mid[..|base|];
  }

  /** The kinds of event a batch emits: never 'finally', which only send and sendSigned emit. */
  predicate BatchEvent(e: Event)
  {
    e.Error? || e.Signature? || e.Sent? || e.FinishSending?
  }
}
