/** The transaction data of the library the repository builds on, with the size rules of
    BIP 141 and BIP 144 and the orders used to sort outputs and inputs. */
module Bitcoin {
  import opened Permutations

  datatype Option<+T> = None | Some(value: T)

  const U32_LIMIT: int := 0x1_0000_0000
  const U64_LIMIT: int := 0x1_0000_0000_0000_0000

  type byte = x: int | 0 <= x < 256
  type u32 = x: int | 0 <= x < U32_LIMIT
  type u64 = x: int | 0 <= x < U64_LIMIT

  type Bytes = seq<byte>
  type Script = Bytes
  type Amount = u64
  /** A transaction id, read as a number: only its strict total order matters here. */
  type Txid = nat

  datatype OutPoint = OutPoint(txid: Txid, vout: u32)
  datatype TxIn = TxIn(previousOutput: OutPoint, scriptSig: Bytes, sequence: u32, witnessStack: seq<Bytes>)
  datatype TxOut = TxOut(value: Amount, scriptPubkey: Script)
  datatype Transaction = Transaction(version: int, lockTime: u32, input: seq<TxIn>, output: seq<TxOut>)

  datatype Network = Mainnet | Testnet | Signet | Regtest
  datatype AddressKind = LegacyMain | LegacyTest | SegwitMain | SegwitTest | SegwitRegtest

  /** Two addresses of different kinds may share one script, yet they are not equal. */
  datatype Address = Address(kind: AddressKind, script: Script) {
    predicate ValidForNetwork(network: Network) {
      match kind
      case LegacyMain => network.Mainnet?
      case LegacyTest => !network.Mainnet?
      case SegwitMain => network.Mainnet?
      case SegwitTest => network.Testnet? || network.Signet?
      case SegwitRegtest => network.Regtest?
    }
  }

  /** One signed input as it travels between peers, with the amount it claims. */
  datatype InputDataSigned = InputDataSigned(txin: TxIn, amount: Option<Amount>)

  datatype PsbtInput = PsbtInput(finalScriptWitness: Option<seq<Bytes>>)
  datatype Psbt = Psbt(unsignedTx: Transaction, inputs: seq<PsbtInput>)

  /** A transaction may become a PSBT only if none of its inputs is signed yet. */
  predicate Unsigned(tx: Transaction) {
    forall i :: 0 <= i < |tx.input| ==> tx.input[i].scriptSig == [] && tx.input[i].witnessStack == []
  }

  /** Main network addresses are valid nowhere else. The test networks share the old address form, and
      all but the regression network the new one. */
  lemma NetworksOfAddress(a: Address)
    ensures a.ValidForNetwork(Mainnet) <==> a.kind.LegacyMain? || a.kind.SegwitMain?
    ensures a.ValidForNetwork(Testnet) <==> a.kind.LegacyTest? || a.kind.SegwitTest?
    ensures a.ValidForNetwork(Signet) <==> a.ValidForNetwork(Testnet)
    ensures a.ValidForNetwork(Regtest) <==> a.kind.LegacyTest? || a.kind.SegwitRegtest?
  {}

  // ---------------------------------------------------------------- sizes

  function VarIntSize(n: nat): nat {
    if n < 0xFD then 1 else if n <= 0xFFFF then 3 else if n < U32_LIMIT then 5 else 9
  }

  function ItemSize(item: Bytes): nat {
    VarIntSize(|item|) + |item|
  }

  function InputBaseSize(i: TxIn): nat {
    36 + VarIntSize(|i.scriptSig|) + |i.scriptSig| + 4
  }

  function WitnessSize(i: TxIn): nat {
    VarIntSize(|i.witnessStack|) + Sum(ItemSize, i.witnessStack)
  }

  function OutputSize(o: TxOut): nat {
    8 + VarIntSize(|o.scriptPubkey|) + |o.scriptPubkey|
  }

  function BaseSize(tx: Transaction): nat {
    4 + VarIntSize(|tx.input|) + Sum(InputBaseSize, tx.input)
    + VarIntSize(|tx.output|) + Sum(OutputSize, tx.output) + 4
  }

  predicate UsesSegwit(tx: Transaction) {
    tx.input == [] || exists i :: 0 <= i < |tx.input| && tx.input[i].witnessStack != []
  }

  function TotalSize(tx: Transaction): nat {
    BaseSize(tx) + if UsesSegwit(tx) then 2 + Sum(WitnessSize, tx.input) else 0
  }

  /** Weight units, as in the section "Transaction size calculations" of BIP 141. */
  function Weight(tx: Transaction): (w: nat)
    ensures w >= 40
  {
    3 * BaseSize(tx) + TotalSize(tx)
  }

  /** Virtual bytes: a quarter of the weight, rounded up. */
  function VirtualSize(tx: Transaction): nat {
    (Weight(tx) + 3) / 4
  }

  /** Reordering the inputs leaves the weight alone. */
  lemma WeightPermutation(tx: Transaction, inputs: seq<TxIn>)
    requires multiset(tx.input) == multiset(inputs)
    ensures Weight(tx) == Weight(tx.(input := inputs))
  {
    var other := tx.(input := inputs);
    PermutationLength(tx.input, inputs);
    SumPermutation(InputBaseSize, tx.input, inputs);
    SumPermutation(WitnessSize, tx.input, inputs);
    SegwitPermutation(tx, other);
    SegwitPermutation(other, tx);
  }

  lemma SegwitPermutation(a: Transaction, b: Transaction)
    requires multiset(a.input) == multiset(b.input)
    ensures UsesSegwit(a) ==> UsesSegwit(b)
  {
    PermutationLength(a.input, b.input);
    if a.input != [] && UsesSegwit(a) {
      var i :| 0 <= i < |a.input| && a.input[i].witnessStack != [];
      assert a.input[i] in multiset(b.input);
      assert a.input[i] in b.input;
    }
  }

  // ---------------------------------------------------------------- orders

  /** Byte strings in lexicographic order, a prefix first. */
  predicate LexLe(a: Bytes, b: Bytes) {
    a == [] || (b != [] && (a[0] < b[0] || (a[0] == b[0] && LexLe(a[1..], b[1..]))))
  }

  lemma {:induction false} LexTotal(a: Bytes, b: Bytes)
    ensures LexLe(a, b) || LexLe(b, a)
  {
    if a != [] && b != [] {
      LexTotal(a[1..], b[1..]);
    }
  }

  lemma {:induction false} LexTransitive(a: Bytes, b: Bytes, c: Bytes)
    requires LexLe(a, b) && LexLe(b, c)
    ensures LexLe(a, c)
  {
    if a != [] && a[0] == b[0] == c[0] {
      LexTransitive(a[1..], b[1..], c[1..]);
    }
  }

  lemma {:induction false} LexAntisymmetric(a: Bytes, b: Bytes)
    requires LexLe(a, b) && LexLe(b, a)
    ensures a == b
  {
    if a != [] {
      LexAntisymmetric(a[1..], b[1..]);
      assert a == [a[0]] + a[1..] && b == [b[0]] + b[1..];
    }
  }

  /** The first `k` bytes agree, and then `a` ends or has the smaller byte. */
  ghost predicate ComesFirst(a: Bytes, b: Bytes, k: nat) {
    && k <= |a| && k <= |b| && a[..k] == b[..k]
    && (k == |a| || (k < |a| && k < |b| && a[k] < b[k]))
  }

  /** What the order of byte strings is. */
  lemma {:induction false} LexLeIff(a: Bytes, b: Bytes)
    ensures LexLe(a, b) <==> exists k: nat :: ComesFirst(a, b, k)
  {
    if a == [] {
      assert ComesFirst(a, b, 0);
    } else if b != [] && a[0] == b[0] {
      var x, y := a[1..], b[1..];
      LexLeIff(x, y);
      if k: nat :| ComesFirst(x, y, k) {
        assert a[..k + 1] == [a[0]] + x[..k] && b[..k + 1] == [b[0]] + y[..k];
        assert ComesFirst(a, b, k + 1);
      }
      if k: nat :| ComesFirst(a, b, k) {
        assert k > 0;
        assert x[..k - 1] == a[..k][1..] && y[..k - 1] == b[..k][1..];
        assert ComesFirst(x, y, k - 1);
      }
    } else {
      if b != [] && a[0] < b[0] {
        assert ComesFirst(a, b, 0);
      }
      forall k: nat | 0 < k <= |a| && k <= |b|
        ensures a[..k] != b[..k]
      {
        assert a[..k][0] == a[0] && b[..k][0] == b[0];
      }
    }
  }

  predicate ScriptLe(a: TxOut, b: TxOut) {
    LexLe(a.scriptPubkey, b.scriptPubkey)
  }

  lemma ScriptLeTotalPreorder()
    ensures TotalPreorder(ScriptLe)
  {
    forall x: TxOut, y: TxOut ensures ScriptLe(x, y) || ScriptLe(y, x) {
      LexTotal(x.scriptPubkey, y.scriptPubkey);
    }
    forall x: TxOut, y: TxOut, z: TxOut | ScriptLe(x, y) && ScriptLe(y, z)
      ensures ScriptLe(x, z)
    {
      LexTransitive(x.scriptPubkey, y.scriptPubkey, z.scriptPubkey);
    }
  }

  predicate OutPointLt(a: OutPoint, b: OutPoint) {
    a.txid < b.txid || (a.txid == b.txid && a.vout < b.vout)
  }

  /** The txid decides before the output number, as digits of one number do. */
  lemma OutPointLtIff(a: OutPoint, b: OutPoint)
    ensures OutPointLt(a, b) <==> a.txid * U32_LIMIT + a.vout < b.txid * U32_LIMIT + b.vout
  {}

  predicate InputLe(a: InputDataSigned, b: InputDataSigned) {
    a.txin.previousOutput == b.txin.previousOutput
    || OutPointLt(a.txin.previousOutput, b.txin.previousOutput)
  }

  lemma InputLeTotalPreorder()
    ensures TotalPreorder(InputLe)
  {}
}
