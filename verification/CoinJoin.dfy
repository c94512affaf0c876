/** The transaction builder as an object, with its optional blockchain backend. */
module CoinJoin {
  import opened Permutations
  import opened Bitcoin
  import opened CoinJoinSpec
  import opened CoinJoinLaws
  import Float64

  const BACKEND_RETRY: nat := 3

  /** An answer about an outpoint: the call failed, no such outpoint, or its amount. */
  datatype ValueAnswer = CallFailed | NotFound | Found(amount: Amount)

  /** A blockchain backend that may answer, or fail, differently at every call. */
  class Backend {
    const used: (nat, Address) -> Option<bool>
    const value: (nat, OutPoint) -> ValueAnswer
    var calls: nat
    ghost var failures: nat

    constructor (used: (nat, Address) -> Option<bool>, value: (nat, OutPoint) -> ValueAnswer)
      ensures this.used == used && this.value == value && calls == 0 && failures == 0
    {
      this.used, this.value, calls, failures := used, value, 0, 0;
    }

    method AddressAlreadyUsed(addr: Address) returns (answer: Option<bool>)
      modifies this
      ensures answer == used(old(calls), addr) && calls == old(calls) + 1
      ensures failures == old(failures) + if answer.None? then 1 else 0
    {
      answer := used(calls, addr);
      calls := calls + 1;
      failures := failures + if answer.None? then 1 else 0;
    }

    method GetOutpointValue(outpoint: OutPoint) returns (answer: ValueAnswer)
      modifies this
      ensures answer == value(old(calls), outpoint) && calls == old(calls) + 1
      ensures failures == old(failures) + if answer.CallFailed? then 1 else 0
    {
      answer := value(calls, outpoint);
      calls := calls + 1;
      failures := failures + if answer.CallFailed? then 1 else 0;
    }
  }

  /** The amounts a backend reports for `inputs`, one call each from call number `from` on. */
  function Reported(value: (nat, OutPoint) -> ValueAnswer, from: nat, inputs: seq<InputDataSigned>): seq<Option<Amount>>
    decreases inputs
  {
    if inputs == [] then []
    else
      var answer := value(from, OutPointOf(inputs[0]));
      [if answer.Found? then Some(answer.amount) else None] + Reported(value, from + 1, inputs[1..])
  }

  /** The backend's answer about input `k`, if the calls start at number `from`. */
  function AnswersFrom(
    value: (nat, OutPoint) -> ValueAnswer, from: nat, inputs: seq<InputDataSigned>): nat -> Option<Amount>
  {
    (k: nat) =>
      if k < |inputs| then
        var answer := value(from + k, OutPointOf(inputs[k]));
        if answer.Found? then Some(answer.amount) else None
      else None
  }

  lemma {:induction false} ReportedInOrder(
    value: (nat, OutPoint) -> ValueAnswer, from: nat, inputs: seq<InputDataSigned>)
    ensures Reported(value, from, inputs) == seq(|inputs|, AnswersFrom(value, from, inputs))
    decreases inputs
  {
    if inputs != [] {
      ReportedInOrder(value, from + 1, inputs[1..]);
      var rest, all := seq(|inputs[1..]|, AnswersFrom(value, from + 1, inputs[1..])), AnswersFrom(value, from, inputs);
      forall k | 0 <= k < |inputs|
        ensures Reported(value, from, inputs)[k] == all(k)
      {
        if k > 0 {
          assert rest[k - 1] == all(k);
        }
      }
    }
  }

  /** The error with which the backend ended a call, if it did. */
  function RefusalIn(r: Outcome<()>): Option<Error> {
    if r.Err? && (r.error.AddressReuse? || r.error.Electrum? || r.error.InputDoesNotExists?
        || r.error.InputValueNotMatch?)
    then Some(r.error) else None
  }

  ghost predicate AnsweredUnused(used: (nat, Address) -> Option<bool>, from: nat, to: nat, a: Address) {
    exists k: nat :: from <= k < to && used(k, a) == Some(false)
  }

  /** The script-ordered output list does not depend on the order a hash set is walked in. */
  method CollectOutputs(addresses: set<Address>, value: Amount) returns (outs: seq<TxOut>, ghost order: seq<Address>)
    ensures Distinct(order) && Elements(order) == addresses
    ensures outs == Map(ToTxOut(value), order)
  {
    var remaining := addresses;
    outs, order := [], [];
    while remaining != {}
      invariant remaining <= addresses
      invariant Distinct(order) && Elements(order) == addresses - remaining
      invariant outs == Map(ToTxOut(value), order)
      decreases remaining
    {
      var a :| a in remaining;
      assert a !in Elements(order);
      MapAppend(ToTxOut(value), order, [a]);
      assert Elements(order + [a]) == Elements(order) + {a};
      outs, order := outs + [TxOut(value, a.script)], order + [a];
      remaining := remaining - {a};
    }
  }

  lemma TallyStep(acc: u64, amount: Option<Amount>, rest: seq<Option<Amount>>)
    ensures TallyFrom(acc, [amount] + rest) ==
            if amount.None? then Missing
            else if acc + amount.value >= U64_LIMIT then Overflow
            else TallyFrom(acc + amount.value, rest)
  {
    assert ([amount] + rest)[1..] == rest;
  }

  class CoinJoin {
    var outputs: seq<Address>
    var psbt: Option<Transaction>
    var inputs: seq<InputDataSigned>
    var tx: Option<Transaction>
    const minPeer: nat
    const denomination: Amount
    const fee: nat
    var client: Backend?

    function View(): Builder
      reads this
    {
      Builder(outputs, psbt, inputs, tx, minPeer, denomination, fee)
    }

    ghost predicate Valid()
      reads this
    {
      Inv(View())
    }

    constructor (minPeer: nat, denomination: Amount, fee: nat, client: Backend?)
      ensures View() == New(minPeer, denomination, fee) && this.client == client && Valid()
    {
      outputs, psbt, inputs, tx := [], None, [], None;
      this.minPeer, this.denomination, this.fee, this.client := minPeer, denomination, fee, client;
    }

    method AddOutput(addr: Address)
      requires Valid()
      modifies this`outputs
      ensures Valid() && View() == CoinJoinSpec.AddOutput(old(View()), addr)
      ensures View() == Perform(old(View()), CallAddOutput(addr))
    {
      AddOutputInv(View(), addr);
      if addr !in outputs {
        outputs := outputs + [addr];
      }
    }

    /** Ask about one address until the backend answers, sharing the failures already seen. */
    method CheckAddress(addr: Address, failed: nat) returns (r: Outcome<()>, retry: nat)
      requires client != null && failed <= 4
      modifies client
      ensures r.Ok? || r == Err(AddressReuse) || r == Err(Electrum)
      ensures client.calls > old(client.calls)
      ensures client.failures - old(client.failures) == retry - failed && retry >= failed
      ensures r == Err(Electrum) ==> retry == 5 && client.calls - old(client.calls) == retry - failed
      ensures r != Err(Electrum) ==>
                retry <= 4 && client.calls - old(client.calls) == 1 + retry - failed
      ensures r.Ok? ==> client.used(client.calls - 1, addr) == Some(false)
      ensures r == Err(AddressReuse) ==> client.used(client.calls - 1, addr) == Some(true)
    {
      retry := failed;
      while true
        invariant failed <= retry <= BACKEND_RETRY + 1
        invariant client.failures - old(client.failures) == retry - failed
        invariant client.calls - old(client.calls) == retry - failed
        decreases BACKEND_RETRY + 1 - retry
      {
        var answer := client.AddressAlreadyUsed(addr);
        match answer {
          case Some(used) =>
            r := if used then Err(AddressReuse) else Ok(());
            return;
          case None =>
            if retry > BACKEND_RETRY {
              r, retry := Err(Electrum), retry + 1;
              return;
            }
            retry := retry + 1;
        }
      }
    }

    /** Ask the backend about every address; up to `BACKEND_RETRY + 1` failed calls are repeated,
        counted over all addresses together. */
    method CheckAddresses(addresses: set<Address>) returns (r: Outcome<()>)
      requires client != null
      modifies client
      ensures r.Ok? || r == Err(AddressReuse) || r == Err(Electrum)
      ensures r == Err(Electrum) <==> client.failures - old(client.failures) == 5
      ensures old(client.calls) <= client.calls <= old(client.calls) + |addresses| + 4
      ensures r.Ok? ==> client.calls - old(client.calls) == |addresses| + client.failures - old(client.failures)
      ensures r.Ok? ==> forall a :: a in addresses ==> AnsweredUnused(client.used, old(client.calls), client.calls, a)
      ensures r == Err(AddressReuse) ==>
                client.calls > 0 && exists a :: a in addresses && client.used(client.calls - 1, a) == Some(true)
    {
      var retry := 0;
      var remaining := addresses;
      while remaining != {}
        invariant remaining <= addresses && retry <= BACKEND_RETRY + 1
        invariant client.calls == old(client.calls) + (|addresses| - |remaining|) + retry
        invariant client.failures == old(client.failures) + retry
        invariant forall a :: a in addresses - remaining ==>
                  AnsweredUnused(client.used, old(client.calls), client.calls, a)
        decreases remaining
      {
        var addr :| addr in remaining;
        SubsetCardinality(remaining, addresses);
        assert |remaining| == |remaining - {addr}| + 1;
        r, retry := CheckAddress(addr, retry);
        if !r.Ok? {
          return;
        }
        assert AnsweredUnused(client.used, old(client.calls), client.calls, addr);
        forall a | a in addresses - (remaining - {addr})
          ensures AnsweredUnused(client.used, old(client.calls), client.calls, a)
        {
          if a != addr {
            assert a in addresses - remaining;
            var k: nat :| old(client.calls) <= k < client.calls && client.used(k, a) == Some(false);
          }
        }
        remaining := remaining - {addr};
      }
      return Ok(());
    }

    /** The template over the addresses, walked in the hash set's arbitrary order. */
    method BuildTemplate() returns (t: Transaction)
      requires Distinct(outputs)
      ensures t == UnsignedTx(outputs, denomination)
    {
      var outs, order := CollectOutputs(Elements(outputs), denomination);
      SameElementsPermutation(outputs, order);
      TemplateEnumeration(outputs, order, denomination);
      t := Transaction(2, 0, [], SortBy(ScriptLe, outs));
    }

    method GeneratePsbt() returns (r: Outcome<()>)
      requires Valid()
      modifies this`psbt, client
      ensures Valid()
      ensures r != Err(AddressReuse) && r != Err(Electrum) ==> (View(), r) == CoinJoinSpec.GeneratePsbt(old(View()))
      ensures r == Err(AddressReuse) || r == Err(Electrum) ==>
                View() == old(View()) && client != null && CoinJoinSpec.GeneratePsbt(old(View())).1.Ok?
      ensures View() == Perform(old(View()), CallGeneratePsbt(RefusalIn(r)))
      ensures client != null ==>
                && (r == Err(Electrum) <==> client.failures - old(client.failures) == 5)
                && old(client.calls) <= client.calls <= old(client.calls) + |outputs| + 4
      ensures client != null && r.Ok? ==>
                forall a :: a in outputs ==> AnsweredUnused(client.used, old(client.calls), client.calls, a)
      ensures client != null && r == Err(AddressReuse) ==>
                client.calls > 0 && exists a :: a in outputs && client.used(client.calls - 1, a) == Some(true)
    {
      GeneratePsbtInv(View());
      DistinctCardinality(outputs);
      var addresses := Elements(outputs);
      if |addresses| < minPeer {
        return Err(NotEnoughPeers(|addresses|, minPeer));
      } else if psbt.Some? {
        return Err(InitPsbtExists);
      }
      if client != null {
        r := CheckAddresses(addresses);
        if !r.Ok? {
          return;
        }
      }
      var template := BuildTemplate();
      psbt := Some(template);
      r := Ok(());
    }

    /** How the backend's last answer decides about an input that claims `claimed`. */
    static predicate Verdict(r: Outcome<()>, last: ValueAnswer, claimed: Option<Amount>) {
      match last
      case CallFailed => r == Err(Electrum)
      case NotFound => r == Err(InputDoesNotExists)
      case Found(amount) =>
        if claimed.Some? && claimed.value != amount then r == Err(InputValueNotMatch) else r == Ok(())
    }

    /** Up to five calls; the first one that succeeds decides. */
    method CheckAmount(input: InputDataSigned) returns (r: Outcome<()>)
      requires client != null
      modifies client
      ensures old(client.calls) < client.calls <= old(client.calls) + 5
      ensures forall k :: old(client.calls) <= k < client.calls - 1 ==> client.value(k, OutPointOf(input)).CallFailed?
      ensures Verdict(r, client.value(client.calls - 1, OutPointOf(input)), input.amount)
      ensures r == Err(Electrum) ==> client.calls == old(client.calls) + 5
    {
      var retry := 0;
      while true
        invariant client.calls == old(client.calls) + retry && retry <= BACKEND_RETRY + 1
        invariant forall k :: old(client.calls) <= k < client.calls ==> client.value(k, OutPointOf(input)).CallFailed?
        decreases BACKEND_RETRY + 1 - retry
      {
        var answer := client.GetOutpointValue(OutPointOf(input));
        match answer {
          case Found(amount) =>
            if input.amount.Some? && amount != input.amount.value {
              return Err(InputValueNotMatch);
            }
            return Ok(());
          case NotFound =>
            return Err(InputDoesNotExists);
          case CallFailed =>
            if retry > BACKEND_RETRY {
              return Err(Electrum);
            }
            retry := retry + 1;
        }
      }
    }

    method IsRegistered(outpoint: OutPoint) returns (found: bool)
      ensures found <==> outpoint in OutPoints(inputs)
    {
      for i := 0 to |inputs|
        invariant outpoint !in OutPoints(inputs)[..i]
      {
        assert OutPoints(inputs)[i] == OutPointOf(inputs[i]);
        if OutPointOf(inputs[i]) == outpoint {
          return true;
        }
      }
      assert OutPoints(inputs)[..|inputs|] == OutPoints(inputs);
      return false;
    }

    static predicate Refusal(r: Outcome<()>) {
      r == Err(Electrum) || r == Err(InputDoesNotExists) || r == Err(InputValueNotMatch)
    }

    method AddInput(input: InputDataSigned) returns (r: Outcome<()>)
      requires Valid()
      modifies this`inputs, client
      ensures Valid()
      ensures !Refusal(r) ==> (View(), r) == CoinJoinSpec.AddInput(old(View()), input)
      ensures Refusal(r) ==> View() == old(View()) && client != null && CoinJoinSpec.AddInput(old(View()), input).1.Ok?
      ensures View() == Perform(old(View()), CallAddInput(input, RefusalIn(r)))
      ensures client != null && r == Err(DoubleSpend) ==> client.calls == old(client.calls)
      ensures client != null && r != Err(DoubleSpend) ==>
                && old(client.calls) < client.calls <= old(client.calls) + 5
                && Verdict(r, client.value(client.calls - 1, OutPointOf(input)), input.amount)
                && (r == Err(Electrum) ==> client.calls == old(client.calls) + 5)
    {
      assert Inv(CoinJoinSpec.AddInput(View(), input).0) by {
        AddInputInv(View(), input);
      }
      var found := IsRegistered(OutPointOf(input));
      if found {
        return Err(DoubleSpend);
      }
      if client != null {
        r := CheckAmount(input);
        if !r.Ok? {
          return;
        }
      }
      inputs := inputs + [input];
      r := Ok(());
    }

    /** The amounts finalization adds up: the backend's answers if there is a backend, the peers'
        claims otherwise. */
    function Amounts(): seq<Option<Amount>>
      reads this, client
    {
      if client == null then Claimed(inputs) else Reported(client.value, client.calls, inputs)
    }

    /** What the backend, if there is one, is about to answer about each input. */
    function Answers(): Option<nat -> Option<Amount>>
      reads this, client
    {
      if client == null then None else Some(AnswersFrom(client.value, client.calls, inputs))
    }

    lemma AmountsByAnswers()
      ensures Amounts() == AmountsBy(View(), Answers()) && MissingError() == MissingBy(Answers())
    {
      if client != null {
        ReportedInOrder(client.value, client.calls, inputs);
      }
    }

    /** The amounts still to be added from input `i` on. */
    function AmountsFrom(i: nat): seq<Option<Amount>>
      requires i <= |inputs|
      reads this, client
    {
      if client == null then Claimed(inputs[i..]) else Reported(client.value, client.calls, inputs[i..])
    }

    /** The amount of input `i`, asked of the backend if there is one. */
    method InputAmount(i: nat) returns (amount: Option<Amount>)
      requires i < |inputs|
      modifies client
      ensures old(AmountsFrom(i)) == [amount] + AmountsFrom(i + 1)
      ensures client == null ==> amount == inputs[i].amount
      ensures client != null ==>
                var answer := client.value(old(client.calls), inputs[i].txin.previousOutput);
                amount == if answer.Found? then Some(answer.amount) else None
      ensures client != null ==> client.calls == old(client.calls) + 1
    {
      assert inputs[i..][1..] == inputs[i + 1..] && inputs[i..][0] == inputs[i];
      amount := inputs[i].amount;
      if client != null {
        var answer := client.GetOutpointValue(OutPointOf(inputs[i]));
        amount := if answer.Found? then Some(answer.amount) else None;
      }
    }

    function MissingError(): Error
      reads this
    {
      if client == null then AmountMissing else FailVerifyAmount
    }

    method SumInputs() returns (t: Tally)
      modifies client
      ensures t == TallyFrom(0, old(Amounts()))
      ensures client != null && t.Total? ==> client.calls == old(client.calls) + |inputs|
    {
      var total: u64 := 0;
      ghost var rest := Amounts();
      assert inputs[0..] == inputs;
      for i := 0 to |inputs|
        invariant client != null ==> client.calls == old(client.calls) + i
        invariant rest == AmountsFrom(i)
        invariant TallyFrom(total, rest) == TallyFrom(0, old(Amounts()))
      {
        var amount := InputAmount(i);
        rest := AmountsFrom(i + 1);
        TallyStep(total, amount, rest);
        if amount.None? {
          return Missing;
        }
        if total + amount.value >= U64_LIMIT {
          return Overflow;
        }
        total := total + amount.value;
      }
      assert rest == [];
      return Total(total);
    }

    method GenerateTx(dryRun: bool) returns (r: Outcome<Option<Transaction>>)
      requires Valid()
      modifies this`inputs, this`tx, client
      ensures Valid()
      ensures dryRun ==>
                && View() == old(View()) && r == DryRun(old(View()))
                && (client != null ==> client.calls == old(client.calls))
      ensures !dryRun ==> (View(), r) == Finalize(old(View()), old(Amounts()), MissingError())
      ensures View() == Perform(old(View()), CallGenerateTx(dryRun, old(Answers())))
    {
      AmountsByAnswers();
      if dryRun {
        if psbt.None? {
          return Err(InitPsbtNotCreated);
        }
        var simulated := AppendInputs(psbt.value);
        return Ok(Some(simulated));
      }
      assert Inv(Finalize(View(), Amounts(), MissingError()).0) by {
        FinalizeInv(View(), Amounts(), MissingError());
      }
      r := FinalizeTx();
    }

    method FinalizeTx() returns (r: Outcome<Option<Transaction>>)
      modifies this`inputs, this`tx, client
      ensures (View(), r) == Finalize(old(View()), old(Amounts()), MissingError())
    {
      if tx.Some? {
        return Err(TxAlreadyFinalyzed);
      }
      if psbt.None? {
        return Err(InitPsbtNotCreated);
      }
      var outAmount := Sum(ValueOf, psbt.value.output);
      if outAmount >= U64_LIMIT {
        return Abort;
      }
      var tally := SumInputs();
      match tally {
        case Overflow => return Abort;
        case Missing => return Err(MissingError());
        case Total(inpAmount) =>
          if inpAmount <= outAmount {
            return Err(InputAmountTooLow);
          }
          r := SortAndClose(inpAmount - outAmount);
      }
    }

    /** The template with the inputs in their present order. */
    method AppendInputs(unsigned: Transaction) returns (t: Transaction)
      ensures t == Assemble(unsigned, inputs)
    {
      t := unsigned;
      for i := 0 to |inputs|
        invariant t == Assemble(unsigned, inputs[..i])
      {
        MapAppend(TxinOf, inputs[..i], [inputs[i]]);
        assert inputs[..i + 1] == inputs[..i] + [inputs[i]];
        assert t.input + [inputs[i].txin] == unsigned.input + (Map(TxinOf, inputs[..i]) + [inputs[i].txin]);
        t := t.(input := t.input + [inputs[i].txin]);
      }
      assert inputs[..|inputs|] == inputs;
    }

    method SortAndClose(paid: nat) returns (r: Outcome<Option<Transaction>>)
      requires psbt.Some?
      modifies this`inputs, this`tx
      ensures (View(), r) == Close(old(View()), psbt.value, paid)
    {
      inputs := SortInputs(inputs);
      var final := AppendInputs(psbt.value);
      if Float64.QuotientBelow(paid, Weight(final), fee) {
        return Err(FeeTooLow(fee, Weight(final), paid));
      }
      tx := Some(final);
      return Ok(None);
    }
  }
}
