/**
 * Values shared by the transaction dispatch engine: the ledger objects it builds
 * (instructions, key pairs, blocks, transactions), the errors it throws, the
 * signature statuses the network reports, the per-transaction dispatch record
 * and the events it emits to the user interface.
 */
module Types {

  datatype Option<T> = None | Some(value: T)

  datatype Result<T, E> = Ok(value: T) | Err(error: E)

  /** A base-58 account address, kept as its text. */
  type PublicKey = string

  /** A co-signer; only its public key is observable here (partial signing is abstract). */
  datatype Keypair = Keypair(publicKey: PublicKey)

  /** One opaque ledger instruction. */
  datatype Instruction = Instruction(programId: PublicKey, data: seq<int>)

  /** A recent block: the blockhash stamped on transactions and its fee calculator. */
  datatype Block = Block(blockhash: string, lamportsPerSignature: nat)

  /** The wallet adapter: a public key exists exactly when the wallet is connected. */
  datatype Wallet = Wallet(publicKey: Option<PublicKey>)

  /** What the wallet does with a signAllTransactions request. */
  datatype WalletReply = Approves | Declines

  /**
   * A transaction as the engine builds it: fee payer, recent blockhash, its
   * instructions in order, the public keys of the co-signers that partially
   * signed it, and whether the wallet has added its own signature.
   */
  datatype Transaction = Transaction(
    feePayer: PublicKey,
    recentBlockhash: string,
    instructions: seq<Instruction>,
    partialSigners: seq<PublicKey>,
    walletSigned: bool)

  /** The batch sequencing policy. */
  datatype SequenceType = Sequential | Parallel | StopOnFailure

  /** The instruction set handed to the constructor: a flat array, an array of arrays, or not an array. */
  datatype InstructionSet =
    | FlatInstructions(instructions: seq<Instruction>)
    | NestedInstructions(groups: seq<seq<Instruction>>)
    | InstructionsNotArray

  /** The signer set handed to the constructor, shaped like the instruction set. */
  datatype SignerSet =
    | FlatSigners(signers: seq<Keypair>)
    | NestedSigners(groups: seq<seq<Keypair>>)
      /** neither an array nor null or undefined (a null set makes the shape check throw a TypeError) */
    | SignersNotArray

  /** The errors the engine throws. */
  datatype Failure =
    | WalletNotConnected
    | UserDeniedSignature
      /** a non-empty instruction group without a signer group: reading `length` of undefined */
    | SignersMissing
    | NoRecentBlockhash
    | NotEnoughSigners
    | InstructionsMustBeArray
      /** the first sendRawTransaction rejected */
    | BroadcastFailed(message: string)
      /** the last 'Program log: ' line of a failed simulation, without that prefix */
    | ProgramLogFailure(detail: string)
      /** a failed simulation without such a line: the JSON text of its err */
    | SimulationFailure(json: string)
      /** writing to a dispatch record past the end of the list: a TypeError */
    | RecordMissing
      /** the recent-blockhash request rejected */
    | BlockFetchFailed(message: string)
      /** the error sendSignedAsync throws after a 'timeout' event */
    | ConfirmationTimedOut

  const ProgramLogPrefix: string := "Program log: "

  /**
   * The message of each error the engine constructs itself; None for the errors
   * whose text comes from outside this code (the wallet adapter, the JavaScript
   * runtime's TypeErrors, the network).
   */
  function Message(f: Failure): Option<string>
  {
    match f
    case UserDeniedSignature => Some("User denied signature")
    case NoRecentBlockhash => Some("Couldn't get a recent block hash")
    case NotEnoughSigners => Some("TransactionProvider: Multiple instructions given but not enough signers set.")
    case InstructionsMustBeArray => Some("TransactionProvider: Instructions must be an array.")
    case ProgramLogFailure(d) => Some("Transaction failed: " + d)
    case SimulationFailure(j) => Some(j)
    case ConfirmationTimedOut => Some("Timed out awaiting confirmation on transaction")
    case _ => None
  }

  /** The error value a watcher rejects with: the timer's `{timeout: true}` or the network's err object. */
  datatype TxError = TimeoutMarker | ChainErr(json: string)

  /** A signature status; `confirmations` is absent once the transaction is finalized. */
  datatype SignatureStatus = SignatureStatus(slot: nat, confirmations: Option<nat>, err: Option<TxError>)

  /** A per-transaction dispatch record of the batch list. */
  datatype Dispatchable = Dispatchable(
    transaction: Transaction,
    sent: bool,
    failed: bool,
    failureReason: Option<Failure>,
    txId: Option<string>,
    index: nat)

  /** The data a TransactionFailedError carries. */
  datatype FailedData =
    | FailedRecord(record: Dispatchable)
    | FailedIndex(signedTxn: Transaction, index: nat)

  /** The value carried by an 'error' or 'timeout' event. */
  datatype ErrorPayload =
    | ChainError(err: TxError)
    | Thrown(failure: Failure)
    | TransactionFailedError(message: string, data: FailedData)

  /** The events of the notifier, one constructor per event kind. */
  datatype Event =
    | Sent(txId: string, index: Option<nat>, length: Option<nat>)
    | Signature(signedTxId: Option<string>, slot: Option<nat>)
    | FinishSending
    | Finally
    | TransactionHash(hashTxId: string, hashIndex: Option<nat>)
    | Confirmation(payload: string)
    | Error(error: ErrorPayload, errorIndex: Option<nat>)
    | Timeout(timeoutIndex: Option<nat>, timeoutError: ErrorPayload)

  /** How a call to `_batch` ends. */
  datatype BatchOutcome =
      /** the call rejected with this error */
    | BatchFailed(failure: Failure)
      /** an awaited send never settled, so the call never returns */
    | BatchHung
      /** 'finish-sending' was emitted; `pending` lists the sends still in flight (Parallel only) */
    | BatchFinished(pending: seq<nat>)
}
