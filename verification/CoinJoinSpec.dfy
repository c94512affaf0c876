/** What each operation of the transaction builder does to the builder's state, as functions
    on values. The class in `CoinJoin.dfy` is proved against them. */
module CoinJoinSpec {
  import opened Permutations
  import opened Bitcoin
  import Float64

  datatype Error =
    | NotEnoughPeers(have: nat, want: nat)
    | InitPsbtExists
    | InitPsbtNotCreated
    | TxToPsbt
    | DoubleSpend
    | InputAmountTooLow
    | TxAlreadyFinalyzed
    | AddressReuse
    | InputValueNotMatch
    | InputDoesNotExists
    | FeeTooLow(rate: nat, weight: nat, fee: nat)
    | Electrum
    | FailVerifyAmount
    | AmountMissing

  /** `Abort` is a panic: the sum of 64-bit amounts overflowed. */
  datatype Outcome<+T> = Ok(value: T) | Err(error: Error) | Abort

  /** `psbt` holds the unsigned transaction of the initial PSBT. */
  datatype Builder = Builder(
    outputs: seq<Address>, psbt: Option<Transaction>, inputs: seq<InputDataSigned>,
    tx: Option<Transaction>, minPeer: nat, denomination: Amount, fee: nat)

  function New(minPeer: nat, denomination: Amount, fee: nat): Builder {
    Builder([], None, [], None, minPeer, denomination, fee)
  }

  // ---------------------------------------------------------------- outputs

  function AddOutput(b: Builder, addr: Address): Builder {
    if addr in b.outputs then b else b.(outputs := b.outputs + [addr])
  }

  function ToTxOut(value: Amount): Address -> TxOut {
    (a: Address) => TxOut(value, a.script)
  }

  /** The output-only transaction: one output per address, sorted by script. */
  function UnsignedTx(outputs: seq<Address>, value: Amount): Transaction {
    Transaction(2, 0, [], SortBy(ScriptLe, Map(ToTxOut(value), outputs)))
  }

  function GeneratePsbt(b: Builder): (Builder, Outcome<()>) {
    var n := |Elements(b.outputs)|;
    if n < b.minPeer then (b, Err(NotEnoughPeers(n, b.minPeer)))
    else if b.psbt.Some? then (b, Err(InitPsbtExists))
    else (b.(psbt := Some(UnsignedTx(b.outputs, b.denomination))), Ok(()))
  }

  // ---------------------------------------------------------------- inputs

  function TxinOf(i: InputDataSigned): TxIn { i.txin }

  function OutPointOf(i: InputDataSigned): OutPoint { i.txin.previousOutput }

  function OutPoints(inputs: seq<InputDataSigned>): seq<OutPoint> {
    Map(OutPointOf, inputs)
  }

  function AddInput(b: Builder, input: InputDataSigned): (Builder, Outcome<()>) {
    if OutPointOf(input) in OutPoints(b.inputs) then (b, Err(DoubleSpend))
    else (b.(inputs := b.inputs + [input]), Ok(()))
  }

  // ---------------------------------------------------------------- finalization

  datatype Tally = Total(sats: u64) | Missing | Overflow

  /** Adding up amounts in order: stops at the first missing one, or when 64 bits overflow. */
  function TallyFrom(acc: u64, amounts: seq<Option<Amount>>): Tally
    decreases amounts
  {
    if amounts == [] then Total(acc)
    else match amounts[0]
      case None => Missing
      case Some(a) => if acc + a >= U64_LIMIT then Overflow else TallyFrom(acc + a, amounts[1..])
  }

  function ClaimedOf(i: InputDataSigned): Option<Amount> { i.amount }

  function Claimed(inputs: seq<InputDataSigned>): seq<Option<Amount>> {
    Map(ClaimedOf, inputs)
  }

  function ValueOf(o: TxOut): nat { o.value }

  function SortInputs(inputs: seq<InputDataSigned>): seq<InputDataSigned> {
    SortBy(InputLe, inputs)
  }

  function Assemble(unsigned: Transaction, inputs: seq<InputDataSigned>): Transaction {
    unsigned.(input := unsigned.input + Map(TxinOf, inputs))
  }

  /** Sort the inputs, append them to the template and test the fee. The inputs stay sorted
      even when the fee is rejected. */
  function Close(b: Builder, unsigned: Transaction, fee: nat): (Builder, Outcome<Option<Transaction>>) {
    var sorted := SortInputs(b.inputs);
    var tx := Assemble(unsigned, sorted);
    if Float64.QuotientBelow(fee, Weight(tx), b.fee)
    then (b.(inputs := sorted), Err(FeeTooLow(b.fee, Weight(tx), fee)))
    else (b.(inputs := sorted, tx := Some(tx)), Ok(None))
  }

  function CloseTally(b: Builder, unsigned: Transaction, tally: Tally, missing: Error)
    : (Builder, Outcome<Option<Transaction>>)
  {
    var out := Sum(ValueOf, unsigned.output);
    match tally
    case Overflow => (b, Abort)
    case Missing => (b, Err(missing))
    case Total(inp) => if inp <= out then (b, Err(InputAmountTooLow)) else Close(b, unsigned, inp - out)
  }

  /** `generate_tx(false)`, given the amount known for each input and the error reported
      when one is not known. */
  function Finalize(b: Builder, amounts: seq<Option<Amount>>, missing: Error): (Builder, Outcome<Option<Transaction>>) {
    if b.tx.Some? then (b, Err(TxAlreadyFinalyzed))
    else if b.psbt.None? then (b, Err(InitPsbtNotCreated))
    else if Sum(ValueOf, b.psbt.value.output) >= U64_LIMIT then (b, Abort)
    else CloseTally(b, b.psbt.value, TallyFrom(0, amounts), missing)
  }

  /** Finalization by a builder without a backend: the claimed amounts are believed. */
  function FinalizeClaimed(b: Builder): (Builder, Outcome<Option<Transaction>>) {
    Finalize(b, Claimed(b.inputs), AmountMissing)
  }

  /** `generate_tx(true)`: the inputs in their present order, nothing checked or stored. */
  function DryRun(b: Builder): Outcome<Option<Transaction>> {
    if b.psbt.None? then Err(InitPsbtNotCreated) else Ok(Some(Assemble(b.psbt.value, b.inputs)))
  }
}
