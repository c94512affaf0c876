/** Signing one coin against the output-only transaction, and the coins a signer knows of. */
module Signer {
  import opened Permutations
  import opened Bitcoin
  import opened Sighash
  import opened CoinJoinSpec
  import opened CoinJoinLaws

  const HARDENED: int := 0x8000_0000

  type PrivKey = nat
  type PubKey = Bytes

  datatype CoinPath = CoinPath(depth: u32, index: Option<u32>)
  datatype Coin = Coin(txout: TxOut, outpoint: OutPoint, sequence: u32, coinPath: CoinPath)

  datatype SignError = InvalidTransaction | TxAlreadyHasInput | WrongCoinPath | SighashFail | InvalidSignature
  datatype SignResult = Signed(input: InputDataSigned) | SignFailed(error: SignError) | SignAbort

  /** The cryptographic library, as functions. */
  datatype Crypto = Crypto(
    publicKey: PrivKey -> PubKey,
    hash160: PubKey -> Bytes,
    signEcdsa: (PrivKey, Digest) -> Bytes,
    verifyEcdsa: (PubKey, Digest, Bytes) -> bool)

  /** `privateAt` derives from the private key, `publicAt` from the public one. */
  datatype Wallet = Wallet(crypto: Crypto, privateAt: (u32, u32) -> PrivKey, publicAt: (u32, u32) -> PubKey)

  function P2wpkh(c: Crypto, key: PubKey): Script {
    [0, 20] + c.hash160(key)
  }

  /** The script a P2WPKH spend signs, after the "Specification" section of BIP 143. */
  function ScriptCode(c: Crypto, key: PubKey): Script {
    [0x76, 0xa9, 0x14] + c.hash160(key) + [0x88, 0xac]
  }

  datatype SpkResult = Spk(script: Script) | NoIndex | SpkAbort

  /** `spk_at`: a missing index is an error; hardened steps make the descriptor code panic. */
  function SpkAt(w: Wallet, path: CoinPath): SpkResult {
    if path.index.None? then NoIndex
    else if path.depth >= HARDENED || path.index.value >= HARDENED then SpkAbort
    else Spk(P2wpkh(w.crypto, w.publicAt(path.depth, path.index.value)))
  }

  /** The lone-input transaction that is hashed. */
  function WithInput(tx: Transaction, coin: Coin): Transaction {
    tx.(input := tx.input + [TxIn(coin.outpoint, [], coin.sequence, [])])
  }

  function Sign(w: Wallet, tx: Transaction, coin: Coin): SignResult {
    if !Unsigned(tx) then SignFailed(InvalidTransaction)
    else if tx.input != [] then SignFailed(TxAlreadyHasInput)
    else match SpkAt(w, coin.coinPath)
      case SpkAbort => SignAbort
      case NoIndex => SignFailed(WrongCoinPath)
      case Spk(spk) =>
        if coin.txout.scriptPubkey != spk then SignFailed(WrongCoinPath)
        else
          var unsigned := WithInput(tx, coin);
          var key := w.privateAt(coin.coinPath.depth, coin.coinPath.index.value);
          var pub := w.crypto.publicKey(key);
          if P2wpkh(w.crypto, pub) != coin.txout.scriptPubkey then SignAbort
          else
            var msg := DigestOf(unsigned, 0, ScriptCode(w.crypto, pub), coin.txout.value, ALL_ANYONECANPAY);
            var sig := w.crypto.signEcdsa(key, msg);
            if !w.crypto.verifyEcdsa(pub, msg, sig) then SignFailed(InvalidSignature)
            else Signed(InputDataSigned(
                TxIn(coin.outpoint, [], coin.sequence, [sig + [ALL_ANYONECANPAY], pub]), Some(coin.txout.value)))
  }

  /** What a validating node checks of a P2WPKH input that spends `utxo`: the last witness item is
      the key the output was locked to, and the first one its signature, followed by its type byte,
      over the digest of the transaction as it stands. */
  predicate ValidSpend(c: Crypto, tx: Transaction, i: nat, utxo: TxOut)
    requires i < |tx.input|
  {
    var stack := tx.input[i].witnessStack;
    && |stack| == 2 && |stack[0]| > 0
    && utxo.scriptPubkey == P2wpkh(c, stack[1])
    && var sighashType := stack[0][|stack[0]| - 1];
       c.verifyEcdsa(stack[1], DigestOf(tx, i, ScriptCode(c, stack[1]), utxo.value, sighashType),
           stack[0][..|stack[0]| - 1])
  }

  /** A coin that was signed alone over the output-only transaction is a valid spend in every
      transaction with the same outputs, version and lock time, wherever its input stands. */
  lemma SignatureSurvives(w: Wallet, unsigned: Transaction, coin: Coin, tx: Transaction, i: nat)
    requires Sign(w, unsigned, coin).Signed?
    requires i < |tx.input| && tx.input[i] == Sign(w, unsigned, coin).input.txin
    requires tx.version == unsigned.version && tx.lockTime == unsigned.lockTime && tx.output == unsigned.output
    ensures ValidSpend(w.crypto, tx, i, coin.txout)
  {
    var lone := WithInput(unsigned, coin);
    var pub := w.crypto.publicKey(w.privateAt(coin.coinPath.depth, coin.coinPath.index.value));
    var code := ScriptCode(w.crypto, pub);
    DigestEqualIff(lone, 0, code, coin.txout.value, tx, i, code, coin.txout.value);
    var stack := tx.input[i].witnessStack;
    assert stack[0][..|stack[0]| - 1] == w.crypto.signEcdsa(
        w.privateAt(coin.coinPath.depth, coin.coinPath.index.value),
        DigestOf(lone, 0, ScriptCode(w.crypto, pub), coin.txout.value, ALL_ANYONECANPAY));
  }

  /** The script at a path pays to the hash of the public key derived there (version 0, twenty bytes); the
      script that its signature commits to is the old pay-to-public-key-hash one for the same hash. */
  lemma ScriptsAtPath(w: Wallet, path: CoinPath, script: Script)
    ensures SpkAt(w, path) == Spk(script) <==>
              && path.index.Some? && path.depth < 0x8000_0000 && path.index.value < 0x8000_0000
              && script == [0x00, 0x14] + w.crypto.hash160(w.publicAt(path.depth, path.index.value))
    ensures SpkAt(w, path) == NoIndex <==> path.index.None?
    ensures forall key :: ScriptCode(w.crypto, key) == [0x76, 0xa9, 0x14] + P2wpkh(w.crypto, key)[2..] + [0x88, 0xac]
  {
    forall key
      ensures P2wpkh(w.crypto, key)[2..] == w.crypto.hash160(key)
    {
    }
  }

  /** Exactly which error signing ends with. */
  lemma SignErrors(w: Wallet, tx: Transaction, coin: Coin)
    ensures var r := Sign(w, tx, coin);
            var spk := SpkAt(w, coin.coinPath);
            && (r == SignFailed(InvalidTransaction) <==>
                  exists i :: 0 <= i < |tx.input| && (tx.input[i].scriptSig != [] || tx.input[i].witnessStack != []))
            && (r == SignFailed(TxAlreadyHasInput) <==> tx.input != [] && r != SignFailed(InvalidTransaction))
            && (r == SignFailed(WrongCoinPath) <==>
                  tx.input == [] && spk != SpkAbort && spk != Spk(coin.txout.scriptPubkey))
            && r != SignFailed(SighashFail)
            && (r == SignFailed(InvalidSignature) <==>
                  tx.input == [] && spk == Spk(coin.txout.scriptPubkey) && !r.SignAbort? && !r.Signed?)
  {}

  /** The signed input names the coin and claims the coin's own value; its witness is the signature with
      its type byte, and the key that the coin is locked to. */
  lemma SignedInputShape(w: Wallet, unsigned: Transaction, coin: Coin)
    requires Sign(w, unsigned, coin).Signed?
    ensures var input := Sign(w, unsigned, coin).input;
            && input.txin.previousOutput == coin.outpoint && input.amount == Some(coin.txout.value)
            && input.txin.sequence == coin.sequence && input.txin.scriptSig == []
            && var stack := input.txin.witnessStack;
               |stack| == 2 && |stack[0]| > 0 && stack[0][|stack[0]| - 1] == 0x81
               && P2wpkh(w.crypto, stack[1]) == coin.txout.scriptPubkey
  {}

  /** Exactly when signing succeeds: the transaction has no inputs, the coin's script is the one
      derived at its path, private and public derivation agree there, and the signature checks out. */
  lemma SignSucceedsIff(w: Wallet, tx: Transaction, coin: Coin)
    ensures Sign(w, tx, coin).Signed? <==>
            && tx.input == [] && SpkAt(w, coin.coinPath) == Spk(coin.txout.scriptPubkey)
            && var key := w.privateAt(coin.coinPath.depth, coin.coinPath.index.value);
            && var pub := w.crypto.publicKey(key);
            && P2wpkh(w.crypto, pub) == coin.txout.scriptPubkey
            && var msg := DigestOf(WithInput(tx, coin), 0, ScriptCode(w.crypto, pub), coin.txout.value,
                ALL_ANYONECANPAY);
            && w.crypto.verifyEcdsa(pub, msg, w.crypto.signEcdsa(key, msg))
  {}

  /** A hardened step in the path, or a coin at the derived script whose private key does not belong
      to that script. */
  predicate SigningPanics(w: Wallet, coin: Coin) {
    match SpkAt(w, coin.coinPath)
    case SpkAbort => true
    case NoIndex => false
    case Spk(script) =>
      && coin.txout.scriptPubkey == script
      && var key := w.privateAt(coin.coinPath.depth, coin.coinPath.index.value);
         P2wpkh(w.crypto, w.crypto.publicKey(key)) != script
  }

  lemma SignPanicsIff(w: Wallet, tx: Transaction, coin: Coin)
    ensures Sign(w, tx, coin).SignAbort? <==> tx.input == [] && SigningPanics(w, coin)
  {}

  /** Every signed input that the builder assembles into a transaction is valid there, whatever the
      other inputs are: in a dry run and in the final transaction alike. */
  lemma AssembledSpendValid(w: Wallet, unsigned: Transaction, coin: Coin, inputs: seq<InputDataSigned>, i: nat)
    requires Sign(w, unsigned, coin).Signed?
    requires i < |inputs| && inputs[i] == Sign(w, unsigned, coin).input
    ensures var tx := Assemble(unsigned, inputs); i < |tx.input| && ValidSpend(w.crypto, tx, i, coin.txout)
  {
    assert unsigned.input == [];
    assert Assemble(unsigned, inputs).input == Map(TxinOf, inputs);
    SignatureSurvives(w, unsigned, coin, Assemble(unsigned, inputs), i);
  }

  /** After a successful finalization the registered coin is spent, and validly so. */
  lemma FinalizedSpendValid(b: Builder, w: Wallet, coin: Coin)
    requires Inv(b) && FinalizeClaimed(b).1.Ok?
    requires b.psbt.Some? && Sign(w, b.psbt.value, coin).Signed?
    requires Sign(w, b.psbt.value, coin).input in b.inputs
    ensures exists i :: && 0 <= i < |FinalizeClaimed(b).0.tx.value.input|
                        && FinalizeClaimed(b).0.tx.value.input[i].previousOutput == coin.outpoint
                        && ValidSpend(w.crypto, FinalizeClaimed(b).0.tx.value, i, coin.txout)
  {
    var b' := FinalizeClaimed(b).0;
    TemplateHasNoInputs(b);
    FinalizeSucceedsIff(b);
    var input := Sign(w, b.psbt.value, coin).input;
    assert input in multiset(b'.inputs);
    var i :| 0 <= i < |b'.inputs| && b'.inputs[i] == input;
    AssembledSpendValid(w, b.psbt.value, coin, b'.inputs, i);
    SignedInputShape(w, b.psbt.value, coin);
  }
}
