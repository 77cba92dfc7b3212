/**
 * The Signer of both SendTransaction implementations: it packs instruction
 * groups into transactions stamped with the wallet's key as fee payer and the
 * recent blockhash, has the co-signers partially sign each one, and asks the
 * wallet once to sign them all.
 */
module Signer {
  import opened Types

  /** The positions below `n` of the non-empty instruction groups, in ascending order. */
  function Kept(groups: seq<seq<Instruction>>, n: nat): seq<nat>
    requires n <= |groups|
  {
    if n == 0 then []
    else Kept(groups, n - 1) + (if |groups[n - 1]| > 0 then [n - 1] else [])
  }

  /** The number of non-empty groups, counted independently of Kept. */
  function NonEmptyCount(groups: seq<seq<Instruction>>): nat
  {
    if groups == [] then 0
    else (if |groups[0]| > 0 then 1 else 0) + NonEmptyCount(groups[1..])
  }

  /** Kept lists exactly the non-empty groups below n, each once, in ascending order. */
  lemma {:induction false} KeptExactly(groups: seq<seq<Instruction>>, n: nat)
    requires n <= |groups|
    ensures forall j :: 0 <= j < |Kept(groups, n)| ==> Kept(groups, n)[j] < n && |groups[Kept(groups, n)[j]]| > 0
    ensures forall i :: 0 <= i < n && |groups[i]| > 0 ==> i in Kept(groups, n)
    ensures forall j, k :: 0 <= j < k < |Kept(groups, n)| ==> Kept(groups, n)[j] < Kept(groups, n)[k]
  {
    if n > 0 {
      KeptExactly(groups, n - 1);
    }
  }

  /** As many transactions are kept as there are non-empty groups. */
  lemma {:induction false} KeptCount(groups: seq<seq<Instruction>>)
    ensures |Kept(groups, |groups|)| == NonEmptyCount(groups)
  {
    if groups != [] {
      KeptCount(groups[1..]);
      KeptShift(groups, |groups|);
    }
  }

  /** Dropping the first group drops at most its own position and shifts the rest by one. */
  lemma {:induction false} KeptShift(groups: seq<seq<Instruction>>, n: nat)
    requires 1 <= n <= |groups|
    ensures |Kept(groups, n)| == (if |groups[0]| > 0 then 1 else 0) + |Kept(groups[1..], n - 1)|
  {
    if n > 1 {
      KeptShift(groups, n - 1);
      assert groups[1..][n - 2] == groups[n - 1];
    }
  }

  /** Some non-empty group has no signer group beside it. */
  predicate MissingSigners(groups: seq<seq<Instruction>>, signers: seq<seq<Keypair>>)
  {
    exists i :: |signers| <= i < |groups| && |groups[i]| > 0
  }

  function PublicKeys(signers: seq<Keypair>): (r: seq<PublicKey>)
    ensures |r| == |signers|
    ensures forall j :: 0 <= j < |signers| ==> r[j] == signers[j].publicKey
  {
    if signers == [] then [] else [signers[0].publicKey] + PublicKeys(signers[1..])
  }

  /** The transaction one non-empty group becomes before the wallet signs it. */
  function Build(feePayer: PublicKey, block: Block, instructions: seq<Instruction>, signers: seq<Keypair>): Transaction
  {
    Transaction(feePayer, block.blockhash, instructions, if |signers| > 0 then PublicKeys(signers) else [], false)
  }

  /** The wallet's signature added to an unsigned transaction. */
  function WalletSigned(t: Transaction): Transaction
  {
    t.(walletSigned := true)
  }

  /**
   * What signAll yields, stated by positions: the group at the j-th kept index
   * becomes the j-th transaction.
   */
  function SignAllResult(wallet: Wallet, groups: seq<seq<Instruction>>, signers: seq<seq<Keypair>>,
                         block: Block, reply: WalletReply): Result<seq<Transaction>, Failure>
  {
    if wallet.publicKey.None? then Err(WalletNotConnected)
    else if MissingSigners(groups, signers) then Err(SignersMissing)
    else if reply == Declines then Err(UserDeniedSignature)
    else
      var ks := Kept(groups, |groups|);
      KeptExactly(groups, |groups|);
      Ok(seq(|ks|, j requires 0 <= j < |ks| =>
        WalletSigned(Build(wallet.publicKey.value, block, groups[ks[j]], signers[ks[j]]))))
  }

  /**
   * signAll: throws wallet-not-connected before building anything, builds one
   * transaction per non-empty group by pushing in a loop, then asks the wallet
   * to sign them all; any refusal becomes 'User denied signature'.
   */
  method SignAll(wallet: Wallet, groups: seq<seq<Instruction>>, signers: seq<seq<Keypair>>,
                 block: Block, reply: WalletReply) returns (r: Result<seq<Transaction>, Failure>)
    ensures r == SignAllResult(wallet, groups, signers, block, reply)
    ensures wallet.publicKey.None? ==> r == Err(WalletNotConnected)
    ensures r.Ok? ==> |r.value| == NonEmptyCount(groups)
  {
    if wallet.publicKey.None? {
      return Err(WalletNotConnected);
    }
    var feePayer := wallet.publicKey.value;
    var unsigned: seq<Transaction> := [];
    var i := 0;
    while i < |groups|
      invariant 0 <= i <= |groups|
      invariant forall k :: |signers| <= k < i ==> |groups[k]| == 0
      invariant |unsigned| == |Kept(groups, i)|
      invariant forall j :: 0 <= j < |unsigned| ==>
        Kept(groups, i)[j] < i && Kept(groups, i)[j] < |signers| &&
        unsigned[j] == Build(feePayer, block, groups[Kept(groups, i)[j]], signers[Kept(groups, i)[j]])
    {
      KeptExactly(groups, i);
      if |groups[i]| > 0 {
        if i >= |signers| {
          assert |signers| <= i < |groups| && |groups[i]| > 0;
          return Err(SignersMissing);
        }
        var transaction := Build(feePayer, block, groups[i], signers[i]);
        unsigned := unsigned + [transaction];
      }
      i := i + 1;
    }
    KeptCount(groups);
    assert !MissingSigners(groups, signers);
    if reply == Declines {
      return Err(UserDeniedSignature);
    }
    var signed := seq(|unsigned|, j requires 0 <= j < |unsigned| => WalletSigned(unsigned[j]));
    WalletSignsAllBuilt(wallet, groups, signers, block, unsigned);
    r := Ok(signed);
  }

  /** Once every group is built, the wallet's approval yields SignAllResult. */
  lemma WalletSignsAllBuilt(wallet: Wallet, groups: seq<seq<Instruction>>, signers: seq<seq<Keypair>>,
                            block: Block, unsigned: seq<Transaction>)
    requires wallet.publicKey.Some? && !MissingSigners(groups, signers)
    requires |unsigned| == |Kept(groups, |groups|)|
    requires forall j :: 0 <= j < |unsigned| ==>
      Kept(groups, |groups|)[j] < |groups| && Kept(groups, |groups|)[j] < |signers| &&
      unsigned[j] == Build(wallet.publicKey.value, block, groups[Kept(groups, |groups|)[j]], signers[Kept(groups, |groups|)[j]])
    ensures SignAllResult(wallet, groups, signers, block, Approves) ==
      Ok(seq(|unsigned|, j requires 0 <= j < |unsigned| => WalletSigned(unsigned[j])))
  {
    var ks := Kept(groups, |groups|);
    KeptExactly(groups, |groups|);
    var expected := seq(|ks|, j requires 0 <= j < |ks| =>
      WalletSigned(Build(wallet.publicKey.value, block, groups[ks[j]], signers[ks[j]])));
    var got := seq(|unsigned|, j requires 0 <= j < |unsigned| => WalletSigned(unsigned[j]));
    assert forall j :: 0 <= j < |got| ==> got[j] == expected[j];
    assert got == expected;
  }

  /**
   * sign: signAll on the one group; element 0 of the result, which is absent
   * (undefined in the source) when the group is empty.
   */
  method Sign(wallet: Wallet, instructions: seq<Instruction>, signers: seq<Keypair>,
              block: Block, reply: WalletReply) returns (r: Result<Option<Transaction>, Failure>)
    ensures wallet.publicKey.None? ==> r == Err(WalletNotConnected)
    ensures wallet.publicKey.Some? && reply == Declines ==> r == Err(UserDeniedSignature)
    ensures r.Ok? <==> wallet.publicKey.Some? && reply == Approves
    ensures r.Ok? && |instructions| > 0 ==>
      r.value == Some(WalletSigned(Build(wallet.publicKey.value, block, instructions, signers)))
    ensures r.Ok? && |instructions| == 0 ==> r.value == None
  {
    var all := SignAll(wallet, [instructions], [signers], block, reply);
    assert !MissingSigners([instructions], [signers]);
    if all.Err? {
      return Err(all.error);
    }
    assert Kept([instructions], 1) == if |instructions| > 0 then [0] else [];
    if |all.value| > 0 {
      r := Ok(Some(all.value[0]));
    } else {
      r := Ok(None);
    }
  }

  /** signAll fails with wallet-not-connected whatever the groups and the wallet's reply. */
  lemma NotConnectedFirst(groups: seq<seq<Instruction>>, signers: seq<seq<Keypair>>, block: Block, reply: WalletReply)
    ensures SignAllResult(Wallet(None), groups, signers, block, reply) == Err(WalletNotConnected)
  {
  }

  /**
   * One transaction per non-empty group, in input order: the j-th transaction
   * comes from a non-empty group g_j with g_0 < g_1 < ..., every non-empty group
   * is some g_j, and each carries the wallet key as fee payer, the group's
   * instructions in order, the block's blockhash, and co-signer signatures
   * exactly when the group's signer list is non-empty.
   */
  lemma {:induction false} SignAllPacksInOrder(wallet: Wallet, groups: seq<seq<Instruction>>, signers: seq<seq<Keypair>>,
                                               block: Block, reply: WalletReply)
    requires SignAllResult(wallet, groups, signers, block, reply).Ok?
    ensures var txs := SignAllResult(wallet, groups, signers, block, reply).value;
      var ks := Kept(groups, |groups|);
      && |txs| == |ks| == NonEmptyCount(groups)
      && (forall j :: 0 <= j < |ks| ==> ks[j] < |groups| && ks[j] < |signers| && |groups[ks[j]]| > 0)
      && (forall j, k :: 0 <= j < k < |ks| ==> ks[j] < ks[k])
      && (forall i :: 0 <= i < |groups| && |groups[i]| > 0 ==> i in ks)
      && (forall j :: 0 <= j < |ks| ==>
            && txs[j].feePayer == wallet.publicKey.value
            && txs[j].instructions == groups[ks[j]]
            && txs[j].recentBlockhash == block.blockhash
            && (txs[j].partialSigners != [] <==> signers[ks[j]] != [])
            && txs[j].partialSigners == PublicKeys(signers[ks[j]])
            && txs[j].walletSigned)
  {
    KeptExactly(groups, |groups|);
    KeptCount(groups);
  }

  /** Any refusal of the wallet surfaces as the single error 'User denied signature'. */
  lemma DeclineIsUserDenied(wallet: Wallet, groups: seq<seq<Instruction>>, signers: seq<seq<Keypair>>, block: Block)
    requires wallet.publicKey.Some? && !MissingSigners(groups, signers)
    ensures SignAllResult(wallet, groups, signers, block, Declines) == Err(UserDeniedSignature)
    ensures Message(UserDeniedSignature) == Some("User denied signature")
  {
  }
}
