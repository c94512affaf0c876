/** The transaction digest a SegWit v0 signature commits to, after the "Specification" section
    of BIP 143. Hashes are kept as the data they commit to, so equal digests mean equal data. */
module Sighash {
  import opened Bitcoin

  const SIGHASH_ALL: byte := 0x01
  const SIGHASH_NONE: byte := 0x02
  const SIGHASH_SINGLE: byte := 0x03
  const ANYONECANPAY: byte := 0x80
  const ALL_ANYONECANPAY: byte := 0x81

  datatype Prevouts = AllPrevouts(outpoints: seq<OutPoint>) | NoPrevouts
  datatype Sequences = AllSequences(sequences: seq<u32>) | NoSequences
  datatype Outputs = AllOutputs(outputs: seq<TxOut>) | OneOutput(output: TxOut) | NoOutputs

  datatype Digest = Digest(
    version: int, prevouts: Prevouts, sequences: Sequences, outpoint: OutPoint, scriptCode: Script,
    value: Amount, sequence: u32, outputs: Outputs, lockTime: u32, sighashType: byte)

  function PrevoutsOf(inputs: seq<TxIn>): seq<OutPoint> {
    if inputs == [] then [] else [inputs[0].previousOutput] + PrevoutsOf(inputs[1..])
  }

  function SequencesOf(inputs: seq<TxIn>): seq<u32> {
    if inputs == [] then [] else [inputs[0].sequence] + SequencesOf(inputs[1..])
  }

  predicate AnyoneCanPay(t: byte) { t >= ANYONECANPAY }

  function BaseType(t: byte): byte { t % 0x20 }

  function DigestOf(tx: Transaction, i: nat, scriptCode: Script, value: Amount, t: byte): Digest
    requires i < |tx.input|
  {
    var single, none := BaseType(t) == SIGHASH_SINGLE, BaseType(t) == SIGHASH_NONE;
    Digest(
      tx.version,
      if AnyoneCanPay(t) then NoPrevouts else AllPrevouts(PrevoutsOf(tx.input)),
      if AnyoneCanPay(t) || single || none then NoSequences else AllSequences(SequencesOf(tx.input)),
      tx.input[i].previousOutput, scriptCode, value, tx.input[i].sequence,
      if !single && !none then AllOutputs(tx.output)
      else if single && i < |tx.output| then OneOutput(tx.output[i]) else NoOutputs,
      tx.lockTime, t)
  }

  /** An ALL|ANYONECANPAY digest, whose type byte is 0x81, survives a change of transaction exactly when
      the version, the lock time, every output, and of the signed input the outpoint, the sequence, the
      amount and the script code survive; the other inputs, their order and the position of the signed one
      are free. */
  lemma DigestEqualIff(
    tx: Transaction, i: nat, scriptCode: Script, value: Amount,
    tx': Transaction, j: nat, scriptCode': Script, value': Amount)
    requires i < |tx.input| && j < |tx'.input|
    ensures DigestOf(tx, i, scriptCode, value, 0x81) == DigestOf(tx', j, scriptCode', value', 0x81)
            <==> && tx.version == tx'.version && tx.lockTime == tx'.lockTime && tx.output == tx'.output
                 && tx.input[i].previousOutput == tx'.input[j].previousOutput
                 && tx.input[i].sequence == tx'.input[j].sequence
                 && scriptCode == scriptCode' && value == value'
  {}

  /** Digests of every type commit to the signed input, its amount and script code, and to the type. */
  lemma DigestCommits(
    tx: Transaction, i: nat, scriptCode: Script, value: Amount, t: byte,
    tx': Transaction, j: nat, scriptCode': Script, value': Amount, t': byte)
    requires i < |tx.input| && j < |tx'.input|
    requires DigestOf(tx, i, scriptCode, value, t) == DigestOf(tx', j, scriptCode', value', t')
    ensures tx.version == tx'.version && tx.lockTime == tx'.lockTime && t == t'
    ensures tx.input[i].previousOutput == tx'.input[j].previousOutput && tx.input[i].sequence == tx'.input[j].sequence
    ensures scriptCode == scriptCode' && value == value'
  {}

  lemma {:induction false} PrevoutsLength(inputs: seq<TxIn>)
    ensures |PrevoutsOf(inputs)| == |inputs|
  {
    if inputs != [] {
      PrevoutsLength(inputs[1..]);
    }
  }

  /** Without ANYONECANPAY a digest taken over a lone input never survives the arrival of another. */
  lemma PlainAllDoesNotSurvive(tx: Transaction, tx': Transaction, i: nat, scriptCode: Script, value: Amount)
    requires |tx.input| == 1 && |tx'.input| > 1 && i < |tx'.input|
    ensures DigestOf(tx, 0, scriptCode, value, SIGHASH_ALL) != DigestOf(tx', i, scriptCode, value, SIGHASH_ALL)
  {
    PrevoutsLength(tx.input);
    PrevoutsLength(tx'.input);
  }
}
