/** Transactions as bytes, with and without witnesses, after the "Specification" section of BIP 144. The
    sizes that the fee is computed from are the lengths of these bytes. */
module Serialization {
  import opened Permutations
  import opened Bitcoin

  function LittleEndian(n: nat, size: nat): (b: Bytes)
    ensures |b| == size
  {
    if size == 0 then [] else [n % 256] + LittleEndian(n / 256, size - 1)
  }

  /** A length, in one byte if it is small, and otherwise in two, four or eight after a marker byte. */
  function CompactSize(n: nat): Bytes {
    if n <= 252 then [n]
    else if n < 0x1_0000 then [253] + LittleEndian(n, 2)
    else if n < 0x1_0000_0000 then [254] + LittleEndian(n, 4)
    else [255] + LittleEndian(n, 8)
  }

  function Counted(b: Bytes): Bytes {
    CompactSize(|b|) + b
  }

  function Concat(parts: seq<Bytes>): Bytes {
    if parts == [] then [] else parts[0] + Concat(parts[1..])
  }

  function TxInBytes(i: TxIn): Bytes {
    LittleEndian(i.previousOutput.txid, 32) + LittleEndian(i.previousOutput.vout, 4)
    + Counted(i.scriptSig) + LittleEndian(i.sequence, 4)
  }

  function TxOutBytes(o: TxOut): Bytes {
    LittleEndian(o.value, 8) + Counted(o.scriptPubkey)
  }

  function WitnessBytes(i: TxIn): Bytes {
    CompactSize(|i.witnessStack|) + Concat(Map(Counted, i.witnessStack))
  }

  function VersionBytes(version: int): Bytes {
    LittleEndian(version % 0x1_0000_0000, 4)
  }

  function Body(tx: Transaction): Bytes {
    CompactSize(|tx.input|) + Concat(Map(TxInBytes, tx.input))
    + CompactSize(|tx.output|) + Concat(Map(TxOutBytes, tx.output))
  }

  /** The form that a transaction id is the hash of. */
  function Stripped(tx: Transaction): Bytes {
    VersionBytes(tx.version) + Body(tx) + LittleEndian(tx.lockTime, 4)
  }

  /** The form that is sent: marker, flag and witnesses are there if some input has a witness, or if there
      is no input at all, where they tell the empty input list from the marker. */
  function Serialized(tx: Transaction): Bytes {
    if tx.input != [] && forall i :: 0 <= i < |tx.input| ==> tx.input[i].witnessStack == [] then Stripped(tx)
    else
      VersionBytes(tx.version) + [0, 1] + Body(tx) + Concat(Map(WitnessBytes, tx.input)) + LittleEndian(tx.lockTime, 4)
  }

  lemma {:induction false} ConcatLength<A(!new)>(bytes: A -> Bytes, size: A -> nat, s: seq<A>)
    requires forall x :: |bytes(x)| == size(x)
    ensures |Concat(Map(bytes, s))| == Sum(size, s)
  {
    if s != [] {
      ConcatLength(bytes, size, s[1..]);
      assert Map(bytes, s)[1..] == Map(bytes, s[1..]);
    }
  }

  lemma CompactSizeLength(n: nat)
    ensures |CompactSize(n)| == VarIntSize(n)
  {}

  lemma WitnessLength(i: TxIn)
    ensures |WitnessBytes(i)| == WitnessSize(i)
  {
    ConcatLength(Counted, ItemSize, i.witnessStack);
  }

  lemma BodyLength(tx: Transaction)
    ensures |Body(tx)| == BaseSize(tx) - 8
  {
    ConcatLength(TxInBytes, InputBaseSize, tx.input);
    ConcatLength(TxOutBytes, OutputSize, tx.output);
  }

  lemma WitnessesLength(tx: Transaction)
    ensures |Concat(Map(WitnessBytes, tx.input))| == Sum(WitnessSize, tx.input)
  {
    forall i: TxIn
      ensures |WitnessBytes(i)| == WitnessSize(i)
    {
      WitnessLength(i);
    }
    ConcatLength(WitnessBytes, WitnessSize, tx.input);
  }

  /** The weight counts every byte without witnesses three times and every byte sent once, as in the
      section "Transaction size calculations" of BIP 141; four weight units make a virtual byte, the last
      one started counting in full. */
  lemma WeightIsSerialized(tx: Transaction)
    ensures Weight(tx) == 3 * |Stripped(tx)| + |Serialized(tx)|
    ensures 4 * VirtualSize(tx) - 4 < Weight(tx) <= 4 * VirtualSize(tx)
  {
    BodyLength(tx);
    WitnessesLength(tx);
  }
}
