/** The laws of the builder: what it freezes depends on the sets it collected and on
    nothing else, and no sequence of calls breaks its invariant. */
module CoinJoinLaws {
  import opened Permutations
  import opened Bitcoin
  import opened CoinJoinSpec
  import Float64

  // ---------------------------------------------------------------- outputs

  /** The template pays every address once, each the denomination, in script order. */
  lemma TemplateShape(outputs: seq<Address>, value: Amount)
    ensures var tx := UnsignedTx(outputs, value);
            && tx.version == 2 && tx.lockTime == 0 && tx.input == [] && |tx.output| == |outputs|
            && SortedBy(ScriptLe, tx.output)
            && multiset(tx.output) == multiset(Map(ToTxOut(value), outputs))
            && (forall i :: 0 <= i < |tx.output| ==> tx.output[i].value == value)
  {
    var outs := Map(ToTxOut(value), outputs);
    var sorted := SortBy(ScriptLe, outs);
    ScriptLeTotalPreorder();
    SortSorted(ScriptLe, outs);
    SortPermutation(ScriptLe, outs);
    PermutationLength(sorted, outs);
    forall i | 0 <= i < |sorted|
      ensures sorted[i].value == value
    {
      assert sorted[i] in multiset(outs);
      assert sorted[i] in outs;
    }
  }

  lemma EveryAddressPaid(outputs: seq<Address>, value: Amount, a: Address)
    requires a in outputs
    ensures TxOut(value, a.script) in UnsignedTx(outputs, value).output
  {
    TemplateShape(outputs, value);
    var outs := Map(ToTxOut(value), outputs);
    var i :| 0 <= i < |outputs| && outputs[i] == a;
    assert outs[i] == TxOut(value, a.script);
    assert outs[i] in multiset(outs);
  }

  lemma {:induction false} TemplateTotal(outputs: seq<Address>, value: Amount)
    ensures Sum(ValueOf, UnsignedTx(outputs, value).output) == |outputs| * value
  {
    TemplateShape(outputs, value);
    ConstantSum(UnsignedTx(outputs, value).output, value);
  }

  lemma {:induction false} ConstantSum(outs: seq<TxOut>, value: Amount)
    requires forall i :: 0 <= i < |outs| ==> outs[i].value == value
    ensures Sum(ValueOf, outs) == |outs| * value
  {
    if outs != [] {
      assert outs[0].value == value;
      ConstantSum(outs[1..], value);
      assert (1 + |outs[1..]|) * value == value + |outs[1..]| * value;
    }
  }

  lemma ScriptOrderSeparates(outs: seq<TxOut>, value: Amount)
    requires forall i :: 0 <= i < |outs| ==> outs[i].value == value
    ensures Separates(ScriptLe, outs)
  {
    forall i, j | 0 <= i < |outs| && 0 <= j < |outs| && ScriptLe(outs[i], outs[j]) && ScriptLe(outs[j], outs[i])
      ensures outs[i] == outs[j]
    {
      LexAntisymmetric(outs[i].scriptPubkey, outs[j].scriptPubkey);
    }
  }

  /** Exactly how freezing the template turns out, for a builder without repeated outputs. */
  lemma GeneratePsbtOutcome(b: Builder)
    requires Distinct(b.outputs)
    ensures var (b', r) := GeneratePsbt(b);
            && (r == Err(NotEnoughPeers(|b.outputs|, b.minPeer)) <==> |b.outputs| < b.minPeer)
            && (r == Err(InitPsbtExists) <==> |b.outputs| >= b.minPeer && b.psbt.Some?)
            && (r == Ok(()) <==> |b.outputs| >= b.minPeer && b.psbt.None?)
            && (r == Ok(()) ==> b' == b.(psbt := b'.psbt) && b'.psbt.Some? && b'.psbt.value.input == []
                                && |b'.psbt.value.output| == |b.outputs|)
            && (r != Ok(()) ==> b' == b)
  {
    DistinctCardinality(b.outputs);
    TemplateShape(b.outputs, b.denomination);
  }

  /** Any two enumerations of the same outputs sort to the same template outputs. Addresses that
      share a script cannot break the tie differently, since all outputs carry one value. */
  lemma TemplateEnumeration(outputs: seq<Address>, order: seq<Address>, value: Amount)
    requires multiset(outputs) == multiset(order)
    ensures UnsignedTx(outputs, value) == UnsignedTx(order, value)
  {
    MapPermutation(ToTxOut(value), outputs, order);
    ScriptLeTotalPreorder();
    ScriptOrderSeparates(Map(ToTxOut(value), outputs), value);
    SortConfluent(ScriptLe, Map(ToTxOut(value), outputs), Map(ToTxOut(value), order));
  }

  /** Two builders holding the same address set freeze the same template. */
  lemma OutputConfluence(a: seq<Address>, b: seq<Address>, value: Amount)
    requires Distinct(a) && Distinct(b) && Elements(a) == Elements(b)
    ensures UnsignedTx(a, value) == UnsignedTx(b, value)
  {
    SameElementsPermutation(a, b);
    TemplateEnumeration(a, b, value);
  }

  function AddOutputs(b: Builder, arrivals: seq<Address>): Builder
    decreases arrivals
  {
    if arrivals == [] then b else AddOutputs(AddOutput(b, arrivals[0]), arrivals[1..])
  }

  lemma AddOutputKeepsDistinct(b: Builder, a: Address)
    requires Distinct(b.outputs)
    ensures Distinct(AddOutput(b, a).outputs)
    ensures Elements(AddOutput(b, a).outputs) == Elements(b.outputs) + {a}
  {}

  lemma {:induction false} AddOutputsCollects(b: Builder, arrivals: seq<Address>)
    requires Distinct(b.outputs)
    ensures Distinct(AddOutputs(b, arrivals).outputs)
    ensures Elements(AddOutputs(b, arrivals).outputs) == Elements(b.outputs) + Elements(arrivals)
    ensures AddOutputs(b, arrivals) == b.(outputs := AddOutputs(b, arrivals).outputs)
    decreases arrivals
  {
    if arrivals != [] {
      AddOutputKeepsDistinct(b, arrivals[0]);
      AddOutputsCollects(AddOutput(b, arrivals[0]), arrivals[1..]);
      assert Elements(arrivals) == {arrivals[0]} + Elements(arrivals[1..]);
    }
  }

  /** The same addresses, arriving in any order and with any repeats, give the same template
      and the same verdict. */
  lemma ArrivalOrderIrrelevant(b: Builder, first: seq<Address>, second: seq<Address>)
    requires Distinct(b.outputs) && Elements(first) == Elements(second)
    ensures GeneratePsbt(AddOutputs(b, first)).1 == GeneratePsbt(AddOutputs(b, second)).1
    ensures GeneratePsbt(AddOutputs(b, first)).0.psbt == GeneratePsbt(AddOutputs(b, second)).0.psbt
  {
    AddOutputsCollects(b, first);
    AddOutputsCollects(b, second);
    OutputConfluence(AddOutputs(b, first).outputs, AddOutputs(b, second).outputs, b.denomination);
  }

  // ---------------------------------------------------------------- adding amounts

  function AmountOrZero(o: Option<Amount>): nat {
    if o.None? then 0 else o.value
  }

  /** The sum of the amounts that are known, whatever the order. */
  function KnownSum(amounts: seq<Option<Amount>>): nat {
    Sum(AmountOrZero, amounts)
  }

  ghost predicate HasMissing(amounts: seq<Option<Amount>>) {
    exists i :: 0 <= i < |amounts| && amounts[i].None?
  }

  lemma {:induction false} TallyMeaning(acc: u64, amounts: seq<Option<Amount>>)
    ensures var sum := acc + KnownSum(amounts);
            && (!HasMissing(amounts) ==>
                  TallyFrom(acc, amounts) == if sum < U64_LIMIT then Total(sum) else Overflow)
            && (HasMissing(amounts) && sum < U64_LIMIT ==> TallyFrom(acc, amounts) == Missing)
            && (HasMissing(amounts) ==> !TallyFrom(acc, amounts).Total?)
    decreases amounts
  {
    if amounts != [] {
      if amounts[0].None? {
        assert HasMissing(amounts);
      } else {
        assert HasMissing(amounts) <==> HasMissing(amounts[1..]) by {
          if HasMissing(amounts) {
            var i :| 0 <= i < |amounts| && amounts[i].None?;
            assert amounts[1..][i - 1].None?;
          }
          if HasMissing(amounts[1..]) {
            var i :| 0 <= i < |amounts[1..]| && amounts[1..][i].None?;
            assert amounts[i + 1].None?;
          }
        }
        if acc + amounts[0].value < U64_LIMIT {
          TallyMeaning(acc + amounts[0].value, amounts[1..]);
        }
      }
    }
  }

  /** The first `k` amounts are known and already overflow. */
  ghost predicate Overflows(acc: u64, amounts: seq<Option<Amount>>, k: nat) {
    k <= |amounts| && !HasMissing(amounts[..k]) && acc + KnownSum(amounts[..k]) >= U64_LIMIT
  }

  lemma OverflowsNext(acc: u64, amounts: seq<Option<Amount>>, k: nat)
    requires amounts != [] && amounts[0].Some? && acc + amounts[0].value < U64_LIMIT
    ensures Overflows(acc, amounts, k + 1) <==> Overflows(acc + amounts[0].value, amounts[1..], k)
  {
    if k < |amounts| {
      var front, rest := amounts[..k + 1], amounts[1..][..k];
      assert front == [amounts[0]] + rest && front[1..] == rest;
      assert forall i :: 0 <= i < |rest| ==> rest[i] == front[i + 1];
      if HasMissing(front) {
        var i :| 0 <= i < |front| && front[i].None?;
        assert rest[i - 1].None?;
      }
    }
  }

  /** Exactly when the running sum overflows: some prefix without unknown amounts does. */
  lemma {:induction false} TallyOverflowsIff(acc: u64, amounts: seq<Option<Amount>>)
    ensures TallyFrom(acc, amounts) == Overflow <==> exists k: nat :: Overflows(acc, amounts, k)
    decreases amounts
  {
    if amounts != [] && amounts[0].Some? {
      var a, rest := amounts[0].value, amounts[1..];
      assert amounts[..1] == [amounts[0]];
      if acc + a >= U64_LIMIT {
        assert Overflows(acc, amounts, 1);
      } else {
        var next := acc + a;
        TallyOverflowsIff(next, rest);
        if k: nat :| Overflows(acc, amounts, k) {
          assert k > 0;
          OverflowsNext(acc, amounts, k - 1);
        }
        if k: nat :| Overflows(next, rest, k) {
          OverflowsNext(acc, amounts, k);
        }
      }
    } else {
      forall k: nat
        ensures !Overflows(acc, amounts, k)
      {
        if 0 < k <= |amounts| {
          assert amounts[..k][0].None?;
        }
      }
    }
  }

  lemma ClaimedPermutation(a: seq<InputDataSigned>, b: seq<InputDataSigned>)
    requires multiset(a) == multiset(b)
    ensures KnownSum(Claimed(a)) == KnownSum(Claimed(b))
    ensures HasMissing(Claimed(a)) <==> HasMissing(Claimed(b))
  {
    MapPermutation(ClaimedOf, a, b);
    SumPermutation(AmountOrZero, Claimed(a), Claimed(b));
    MissingPermutation(Claimed(a), Claimed(b));
    MissingPermutation(Claimed(b), Claimed(a));
  }

  lemma MissingPermutation(a: seq<Option<Amount>>, b: seq<Option<Amount>>)
    requires multiset(a) == multiset(b)
    ensures HasMissing(a) ==> HasMissing(b)
  {
    if HasMissing(a) {
      var i :| 0 <= i < |a| && a[i].None?;
      assert a[i] in multiset(b);
      assert a[i] in b;
    }
  }

  // ---------------------------------------------------------------- inputs

  /** Exactly when an input is accepted: no registered one spends the same output of the same
      transaction. It then comes last; a refused one is a double spend and changes nothing. */
  lemma AddInputIff(b: Builder, i: InputDataSigned)
    ensures AddInput(b, i).1 == Ok(()) <==>
              forall k :: 0 <= k < |b.inputs| ==> b.inputs[k].txin.previousOutput != i.txin.previousOutput
    ensures AddInput(b, i).1 == Ok(()) ==> AddInput(b, i).0 == b.(inputs := b.inputs + [i])
    ensures AddInput(b, i).1 != Ok(()) ==> AddInput(b, i) == (b, Err(DoubleSpend))
  {
    assert forall k :: 0 <= k < |b.inputs| ==> OutPoints(b.inputs)[k] == b.inputs[k].txin.previousOutput;
    if k :| 0 <= k < |b.inputs| && b.inputs[k].txin.previousOutput == i.txin.previousOutput {
      assert OutPoints(b.inputs)[k] in OutPoints(b.inputs);
    }
  }

  function AddInputs(b: Builder, arrivals: seq<InputDataSigned>): Builder {
    if arrivals == [] then b
    else var n := |arrivals| - 1; AddInput(AddInputs(b, arrivals[..n]), arrivals[n]).0
  }

  ghost predicate Registered(inputs: seq<InputDataSigned>, o: OutPoint) {
    exists k :: 0 <= k < |inputs| && inputs[k].txin.previousOutput == o
  }

  /** Arrival `k` is the first with its outpoint, which no input of `before` has. */
  ghost predicate FirstArrival(before: seq<InputDataSigned>, arrivals: seq<InputDataSigned>, k: nat) {
    && k < |arrivals| && !Registered(before, OutPointOf(arrivals[k]))
    && forall j :: 0 <= j < k ==> OutPointOf(arrivals[j]) != OutPointOf(arrivals[k])
  }

  ghost predicate ArrivedFirst(before: seq<InputDataSigned>, arrivals: seq<InputDataSigned>, x: InputDataSigned) {
    exists k: nat :: FirstArrival(before, arrivals, k) && arrivals[k] == x
  }

  /** After any arrivals exactly the outpoints that arrived are registered beside those from before, each
      with the input that came first for it. */
  lemma {:induction false} AddInputsCollects(b: Builder, arrivals: seq<InputDataSigned>, x: InputDataSigned)
    ensures var b' := AddInputs(b, arrivals);
            && b' == b.(inputs := b'.inputs)
            && (x in b'.inputs <==> x in b.inputs || ArrivedFirst(b.inputs, arrivals, x))
            && (Registered(b'.inputs, OutPointOf(x)) <==>
                  Registered(b.inputs, OutPointOf(x)) || Registered(arrivals, OutPointOf(x)))
  {
    if arrivals != [] {
      var n := |arrivals| - 1;
      var front, last := arrivals[..n], arrivals[n];
      var before := AddInputs(b, front);
      AddInputsCollects(b, front, x);
      AddInputsCollects(b, front, last);
      AddInputIff(before, last);
      ArrivalsAppend(b.inputs, front, last, arrivals);
      RegisteredAppend(front, last, arrivals, OutPointOf(x));
      RegisteredAppend(before.inputs, last, before.inputs + [last], OutPointOf(x));
    }
  }

  lemma RegisteredAppend(s: seq<InputDataSigned>, i: InputDataSigned, more: seq<InputDataSigned>, o: OutPoint)
    requires more == s + [i]
    ensures Registered(more, o) <==> Registered(s, o) || OutPointOf(i) == o
  {
    if OutPointOf(i) == o {
      assert more[|s|].txin.previousOutput == o;
    }
    if k :| 0 <= k < |s| && s[k].txin.previousOutput == o {
      assert more[k].txin.previousOutput == o;
    }
  }

  lemma ArrivalsAppend(
    before: seq<InputDataSigned>, front: seq<InputDataSigned>, last: InputDataSigned, all: seq<InputDataSigned>)
    requires all == front + [last]
    ensures forall k: nat :: k < |front| ==> (FirstArrival(before, all, k) <==> FirstArrival(before, front, k))
    ensures FirstArrival(before, all, |front|) <==>
              !Registered(before, OutPointOf(last)) && !Registered(front, OutPointOf(last))
  {
    assert forall j :: 0 <= j < |front| ==> all[j] == front[j];
  }

  // ---------------------------------------------------------------- finalization

  ghost predicate DistinctOutPoints(inputs: seq<InputDataSigned>) {
    forall i, j :: 0 <= i < j < |inputs| ==> OutPointOf(inputs[i]) != OutPointOf(inputs[j])
  }

  ghost predicate StrictlyIncreasing(inputs: seq<TxIn>) {
    forall i, j :: 0 <= i < j < |inputs| ==> OutPointLt(inputs[i].previousOutput, inputs[j].previousOutput)
  }

  lemma InputOrderSeparates(inputs: seq<InputDataSigned>)
    requires DistinctOutPoints(inputs)
    ensures Separates(InputLe, inputs)
  {}

  lemma SortInputsConfluent(a: seq<InputDataSigned>, b: seq<InputDataSigned>)
    requires DistinctOutPoints(a) && multiset(a) == multiset(b)
    ensures SortInputs(a) == SortInputs(b)
  {
    InputLeTotalPreorder();
    InputOrderSeparates(a);
    SortConfluent(InputLe, a, b);
  }

  lemma DistinctOutPointsPermutation(a: seq<InputDataSigned>, b: seq<InputDataSigned>)
    requires DistinctOutPoints(a) && multiset(a) == multiset(b)
    ensures DistinctOutPoints(b)
  {
    assert Distinct(OutPoints(a));
    MapPermutation(OutPointOf, a, b);
    DistinctPermutation(OutPoints(a), OutPoints(b));
    forall i, j | 0 <= i < j < |b|
      ensures OutPointOf(b[i]) != OutPointOf(b[j])
    {
      assert OutPoints(b)[i] != OutPoints(b)[j];
    }
  }

  /** Sorting orders the inputs strictly by (txid, vout) and loses none. */
  lemma SortedInputs(inputs: seq<InputDataSigned>)
    requires DistinctOutPoints(inputs)
    ensures multiset(SortInputs(inputs)) == multiset(inputs) && |SortInputs(inputs)| == |inputs|
    ensures DistinctOutPoints(SortInputs(inputs))
    ensures StrictlyIncreasing(Map(TxinOf, SortInputs(inputs)))
  {
    var sorted := SortInputs(inputs);
    InputLeTotalPreorder();
    SortSorted(InputLe, inputs);
    SortPermutation(InputLe, inputs);
    PermutationLength(sorted, inputs);
    DistinctOutPointsPermutation(inputs, sorted);
    forall i, j | 0 <= i < j < |sorted|
      ensures OutPointLt(Map(TxinOf, sorted)[i].previousOutput, Map(TxinOf, sorted)[j].previousOutput)
    {
      assert InputLe(sorted[i], sorted[j]);
      assert OutPointOf(sorted[i]) != OutPointOf(sorted[j]);
    }
  }

  /** Whether amounts are missing and the known ones alone overflow: the one situation in which
      the order of arrival can be observed. */
  ghost predicate Ambiguous(inputs: seq<InputDataSigned>) {
    HasMissing(Claimed(inputs)) && KnownSum(Claimed(inputs)) >= U64_LIMIT
  }

  /** Two builders that agree on everything but the order of their inputs finalize alike:
      the same transaction, or the same error with the same figures. */
  lemma FinalizeConfluence(a: Builder, b: Builder)
    requires b == a.(inputs := b.inputs, outputs := b.outputs)
    requires DistinctOutPoints(a.inputs) && multiset(a.inputs) == multiset(b.inputs)
    requires !Ambiguous(a.inputs)
    ensures FinalizeClaimed(a).1 == FinalizeClaimed(b).1
    ensures FinalizeClaimed(a).0.tx == FinalizeClaimed(b).0.tx
    ensures FinalizeClaimed(a).1.Ok? ==> FinalizeClaimed(a).0.inputs == FinalizeClaimed(b).0.inputs
  {
    ClaimedPermutation(a.inputs, b.inputs);
    TallyMeaning(0, Claimed(a.inputs));
    TallyMeaning(0, Claimed(b.inputs));
    assert TallyFrom(0, Claimed(a.inputs)) == TallyFrom(0, Claimed(b.inputs));
    if a.psbt.Some? {
      CloseTallyConfluence(a, b, a.psbt.value, TallyFrom(0, Claimed(a.inputs)));
    }
  }

  lemma CloseTallyConfluence(a: Builder, b: Builder, unsigned: Transaction, tally: Tally)
    requires b == a.(inputs := b.inputs, outputs := b.outputs)
    requires DistinctOutPoints(a.inputs) && multiset(a.inputs) == multiset(b.inputs)
    ensures CloseTally(a, unsigned, tally, AmountMissing).1 == CloseTally(b, unsigned, tally, AmountMissing).1
    ensures CloseTally(a, unsigned, tally, AmountMissing).0.tx == CloseTally(b, unsigned, tally, AmountMissing).0.tx
    ensures CloseTally(a, unsigned, tally, AmountMissing).1.Ok? ==>
              CloseTally(a, unsigned, tally, AmountMissing).0.inputs
                  == CloseTally(b, unsigned, tally, AmountMissing).0.inputs
  {
    SortInputsConfluent(a.inputs, b.inputs);
    assert Assemble(unsigned, SortInputs(a.inputs)) == Assemble(unsigned, SortInputs(b.inputs));
  }

  function Known(inputs: seq<InputDataSigned>): seq<InputDataSigned> {
    if inputs == [] then [] else (if inputs[0].amount.Some? then [inputs[0]] else []) + Known(inputs[1..])
  }

  function Unknown(inputs: seq<InputDataSigned>): seq<InputDataSigned> {
    if inputs == [] then [] else (if inputs[0].amount.None? then [inputs[0]] else []) + Unknown(inputs[1..])
  }

  lemma {:induction false} KnownUnknownPartition(inputs: seq<InputDataSigned>)
    ensures multiset(inputs) == multiset(Known(inputs)) + multiset(Unknown(inputs))
  {
    if inputs != [] {
      KnownUnknownPartition(inputs[1..]);
      assert inputs == [inputs[0]] + inputs[1..];
    }
  }

  lemma {:induction false} KnownHasAmounts(inputs: seq<InputDataSigned>)
    ensures forall i :: 0 <= i < |Known(inputs)| ==> Known(inputs)[i].amount.Some?
    ensures forall i :: 0 <= i < |inputs| && inputs[i].amount.None? ==> Unknown(inputs) != []
    ensures Unknown(inputs) != [] ==> Unknown(inputs)[0].amount.None?
  {
    if inputs != [] {
      KnownHasAmounts(inputs[1..]);
      forall i | 0 <= i < |inputs| && inputs[i].amount.None?
        ensures Unknown(inputs) != []
      {
        assert i > 0 ==> inputs[1..][i - 1].amount.None?;
      }
    }
  }

  lemma {:induction false} KnownKeepsSum(inputs: seq<InputDataSigned>)
    ensures KnownSum(Claimed(Known(inputs))) == KnownSum(Claimed(inputs))
  {
    if inputs != [] {
      KnownKeepsSum(inputs[1..]);
      assert Claimed(inputs)[1..] == Claimed(inputs[1..]);
      if inputs[0].amount.Some? {
        assert Claimed(Known(inputs))[1..] == Claimed(Known(inputs[1..]));
      } else {
        assert Known(inputs) == Known(inputs[1..]);
      }
    }
  }

  lemma {:induction false} TallyOverflowAppend(acc: u64, known: seq<Option<Amount>>, more: seq<Option<Amount>>)
    requires TallyFrom(acc, known) == Overflow
    ensures TallyFrom(acc, known + more) == Overflow
    decreases known
  {
    assert (known + more)[0] == known[0];
    if acc + known[0].value < U64_LIMIT {
      assert (known + more)[1..] == known[1..] + more;
      TallyOverflowAppend(acc + known[0].value, known[1..], more);
    }
  }

  lemma MapAppend<A, B>(f: A -> B, a: seq<A>, b: seq<A>)
    ensures Map(f, a + b) == Map(f, a) + Map(f, b)
  {}

  /** An ambiguous set of inputs has one order that reports the missing amount and
      another that overflows first. */
  lemma AmbiguousOrders(inputs: seq<InputDataSigned>) returns (early: seq<InputDataSigned>, late: seq<InputDataSigned>)
    requires Ambiguous(inputs)
    ensures multiset(early) == multiset(inputs) && TallyFrom(0, Claimed(early)) == Missing
    ensures multiset(late) == multiset(inputs) && TallyFrom(0, Claimed(late)) == Overflow
  {
    KnownUnknownPartition(inputs);
    KnownHasAmounts(inputs);
    KnownKeepsSum(inputs);
    assert Unknown(inputs) != [] by {
      var i :| 0 <= i < |Claimed(inputs)| && Claimed(inputs)[i].None?;
      assert inputs[i].amount.None?;
    }
    early := Unknown(inputs) + Known(inputs);
    late := Known(inputs) + Unknown(inputs);
    assert Claimed(early)[0].None?;
    TallyMeaning(0, Claimed(Known(inputs)));
    MapAppend(ClaimedOf, Known(inputs), Unknown(inputs));
    TallyOverflowAppend(0, Claimed(Known(inputs)), Claimed(Unknown(inputs)));
  }

  lemma SumOfOne<A>(f: A -> nat, x: A)
    ensures Sum(f, [x]) == f(x)
  {
    assert [x][1..] == [];
  }

  /** Finalization is independent of the order of arrival exactly when it is not ambiguous. */
  lemma OrderIrrelevantIff(b: Builder)
    requires DistinctOutPoints(b.inputs) && b.tx.None? && b.psbt.Some?
    requires Sum(ValueOf, b.psbt.value.output) < U64_LIMIT
    ensures (forall p: seq<InputDataSigned> :: multiset(p) == multiset(b.inputs) ==>
               FinalizeClaimed(b.(inputs := p)).1 == FinalizeClaimed(b).1)
            <==> !Ambiguous(b.inputs)
  {
    if Ambiguous(b.inputs) {
      var early, late := AmbiguousOrders(b.inputs);
      assert FinalizeClaimed(b.(inputs := early)).1 == Err(AmountMissing);
      assert FinalizeClaimed(b.(inputs := late)).1 == Abort;
    } else {
      forall p: seq<InputDataSigned> | multiset(p) == multiset(b.inputs)
        ensures FinalizeClaimed(b.(inputs := p)).1 == FinalizeClaimed(b).1
      {
        FinalizeConfluence(b, b.(inputs := p));
      }
    }
  }

  /** With these amounts money in equals money out plus the fee, and the fee passed the test. */
  ghost predicate FundedBy(tx: Transaction, amounts: seq<Option<Amount>>, rate: nat) {
    var paid, out := KnownSum(amounts), Sum(ValueOf, tx.output);
    && !HasMissing(amounts)
    && out < paid < U64_LIMIT
    && !Float64.QuotientBelow(paid - out, Weight(tx), rate)
  }

  ghost predicate Funded(tx: Transaction, inputs: seq<InputDataSigned>, rate: nat) {
    FundedBy(tx, Claimed(inputs), rate)
  }

  /** Exactly when finalization succeeds with the amounts `amounts`, wherever they come from, and what
      it then stores. */
  lemma FinalizeByAmountsIff(b: Builder, amounts: seq<Option<Amount>>, missing: Error)
    ensures var (b', r) := Finalize(b, amounts, missing);
            && (r.Ok? <==> && b.tx.None? && b.psbt.Some?
                           && FundedBy(Assemble(b.psbt.value, SortInputs(b.inputs)), amounts, b.fee))
            && (r.Ok? ==> && b'.inputs == SortInputs(b.inputs)
                          && b'.tx == Some(Assemble(b.psbt.value, SortInputs(b.inputs))))
  {
    if b.tx.None? && b.psbt.Some? {
      var tx := Assemble(b.psbt.value, SortInputs(b.inputs));
      CloseTallyOk(b, b.psbt.value, TallyFrom(0, amounts), missing);
      TallyFunds(tx, amounts, b.fee);
    }
  }

  /** Exactly when finalization succeeds, and what it then stores. */
  lemma FinalizeSucceedsIff(b: Builder)
    requires DistinctOutPoints(b.inputs)
    requires b.psbt.Some? ==> b.psbt.value.input == []
    ensures FinalizeClaimed(b).1.Ok? <==>
            && b.tx.None? && b.psbt.Some?
            && Funded(Assemble(b.psbt.value, b.inputs), b.inputs, b.fee)
    ensures FinalizeClaimed(b).1.Ok? ==>
              var b' := FinalizeClaimed(b).0;
              && b' == b.(inputs := b'.inputs, tx := b'.tx)
              && multiset(b'.inputs) == multiset(b.inputs)
              && b'.tx == Some(Assemble(b.psbt.value, b'.inputs))
              && StrictlyIncreasing(b'.tx.value.input)
              && Funded(b'.tx.value, b'.inputs, b.fee)
  {
    if b.tx.None? && b.psbt.Some? {
      CloseTallySucceedsIff(b, b.psbt.value);
    }
  }

  /** The template with inputs: everything else stays, and input `i` is the transaction input of the
      `i`-th one. */
  lemma AssembledShape(unsigned: Transaction, inputs: seq<InputDataSigned>)
    requires unsigned.input == []
    ensures var tx := Assemble(unsigned, inputs);
            && tx.version == unsigned.version && tx.lockTime == unsigned.lockTime && tx.output == unsigned.output
            && |tx.input| == |inputs| && forall i :: 0 <= i < |inputs| ==> tx.input[i] == inputs[i].txin
  {}

  /** A dry run shows the template with the inputs in the order they came in, whatever was finalized. */
  lemma DryRunShows(b: Builder)
    requires b.psbt.Some? ==> b.psbt.value.input == []
    ensures b.psbt.None? <==> DryRun(b) == Err(InitPsbtNotCreated)
    ensures b.psbt.Some? ==>
              && DryRun(b).Ok? && DryRun(b).value.Some?
              && var tx := DryRun(b).value.value;
                 && tx.output == b.psbt.value.output && |tx.input| == |b.inputs|
                 && forall i :: 0 <= i < |b.inputs| ==> tx.input[i] == b.inputs[i].txin
  {
    if b.psbt.Some? {
      AssembledShape(b.psbt.value, b.inputs);
    }
  }

  /** Exactly which error a finalization ends with, and its figures. A refused fee leaves the inputs
      sorted; no other error changes anything. */
  lemma FinalizeErrors(b: Builder, amounts: seq<Option<Amount>>, missing: Error)
    requires missing == AmountMissing || missing == FailVerifyAmount
    ensures var (b', r) := Finalize(b, amounts, missing);
            && (r == Err(TxAlreadyFinalyzed) <==> b.tx.Some?)
            && (r == Err(InitPsbtNotCreated) <==> b.tx.None? && b.psbt.None?)
            && (b.tx.None? && b.psbt.Some? ==>
                  var tx := Assemble(b.psbt.value, SortInputs(b.inputs));
                  var out, paid := Sum(ValueOf, b.psbt.value.output), KnownSum(amounts);
                  && (r == Err(missing) <==> out < U64_LIMIT && TallyFrom(0, amounts) == Missing)
                  && (r == Err(InputAmountTooLow) <==> out < U64_LIMIT && !HasMissing(amounts) && paid <= out)
                  && (out < paid < U64_LIMIT && !HasMissing(amounts)
                      && Float64.QuotientBelow(paid - out, Weight(tx), b.fee)
                      <==> r.Err? && r.error.FeeTooLow?)
                  && (r.Err? && r.error.FeeTooLow? ==> r.error == FeeTooLow(b.fee, Weight(tx), paid - out)))
            && (r.Err? && !r.error.FeeTooLow? ==> b' == b)
            && (r.Err? && r.error.FeeTooLow? ==> b' == b.(inputs := SortInputs(b.inputs)))
  {
    if b.tx.None? && b.psbt.Some? {
      ClosingErrors(b, b.psbt.value, amounts, missing);
    }
  }

  lemma ClosingErrors(b: Builder, unsigned: Transaction, amounts: seq<Option<Amount>>, missing: Error)
    requires missing == AmountMissing || missing == FailVerifyAmount
    ensures var (b', r) := CloseTally(b, unsigned, TallyFrom(0, amounts), missing);
            var tx := Assemble(unsigned, SortInputs(b.inputs));
            var out, paid := Sum(ValueOf, unsigned.output), KnownSum(amounts);
            && (r == Err(missing) <==> TallyFrom(0, amounts) == Missing)
            && (r == Err(InputAmountTooLow) && out < U64_LIMIT <==>
                  out < U64_LIMIT && !HasMissing(amounts) && paid <= out)
            && (r.Err? && r.error.FeeTooLow? <==>
                  && out < paid < U64_LIMIT && !HasMissing(amounts)
                  && Float64.QuotientBelow(paid - out, Weight(tx), b.fee))
            && (r.Err? && r.error.FeeTooLow? ==> r.error == FeeTooLow(b.fee, Weight(tx), paid - out))
            && (r.Err? ==> b' == if r.error.FeeTooLow? then b.(inputs := SortInputs(b.inputs)) else b)
            && r != Err(TxAlreadyFinalyzed) && r != Err(InitPsbtNotCreated)
  {
    TallyMeaning(0, amounts);
    CloseTallyErrors(b, unsigned, TallyFrom(0, amounts), missing);
  }

  lemma CloseTallyErrors(b: Builder, unsigned: Transaction, tally: Tally, missing: Error)
    requires missing == AmountMissing || missing == FailVerifyAmount
    ensures var (b', r) := CloseTally(b, unsigned, tally, missing);
            var tx := Assemble(unsigned, SortInputs(b.inputs));
            var out := Sum(ValueOf, unsigned.output);
            && (r == Err(missing) <==> tally == Missing)
            && (r == Err(InputAmountTooLow) <==> tally.Total? && tally.sats <= out)
            && (r.Err? && r.error.FeeTooLow? <==>
                  tally.Total? && tally.sats > out && Float64.QuotientBelow(tally.sats - out, Weight(tx), b.fee))
            && (r.Err? && r.error.FeeTooLow? ==>
                  r.error == FeeTooLow(b.fee, Weight(tx), tally.sats - out) && b' == b.(inputs := SortInputs(b.inputs)))
            && (r.Err? && !r.error.FeeTooLow? ==> b' == b)
            && r != Err(TxAlreadyFinalyzed) && r != Err(InitPsbtNotCreated)
  {}

  /** Exactly when finalization by claimed amounts panics: the outputs overflow, or a prefix of the
      inputs, all with amounts, does. */
  lemma FinalizePanicsIff(b: Builder)
    requires b.tx.None? && b.psbt.Some?
    ensures FinalizeClaimed(b).1.Abort? <==>
              || Sum(ValueOf, b.psbt.value.output) >= U64_LIMIT
              || exists k: nat :: Overflows(0, Claimed(b.inputs), k)
  {
    TallyOverflowsIff(0, Claimed(b.inputs));
  }

  lemma CloseTallySucceedsIff(b: Builder, unsigned: Transaction)
    requires DistinctOutPoints(b.inputs) && unsigned.input == []
    requires b.tx.None?
    ensures var r := CloseTally(b, unsigned, TallyFrom(0, Claimed(b.inputs)), AmountMissing);
            && (r.1.Ok? <==> Funded(Assemble(unsigned, b.inputs), b.inputs, b.fee))
            && (r.1.Ok? ==>
                  && r.0 == b.(inputs := SortInputs(b.inputs), tx := Some(Assemble(unsigned, SortInputs(b.inputs))))
                  && multiset(r.0.inputs) == multiset(b.inputs)
                  && StrictlyIncreasing(r.0.tx.value.input)
                  && Funded(r.0.tx.value, r.0.inputs, b.fee))
  {
    var sorted := SortInputs(b.inputs);
    var tx := Assemble(unsigned, sorted);
    SortedInputs(b.inputs);
    ClaimedPermutation(b.inputs, sorted);
    AssembledWeight(unsigned, b.inputs);
    CloseTallyOk(b, unsigned, TallyFrom(0, Claimed(b.inputs)), AmountMissing);
    TallyFunds(tx, Claimed(b.inputs), b.fee);
    SameFunding(Assemble(unsigned, b.inputs), b.inputs, tx, b.inputs, b.fee);
    SameFunding(tx, b.inputs, tx, sorted, b.fee);
    assert tx.input == Map(TxinOf, sorted);
  }

  lemma CloseTallyOk(b: Builder, unsigned: Transaction, tally: Tally, missing: Error)
    ensures var r := CloseTally(b, unsigned, tally, missing);
            var tx := Assemble(unsigned, SortInputs(b.inputs));
            && (r.1.Ok? <==> TallyCovers(tx, tally, b.fee))
            && (r.1.Ok? ==> r.0 == b.(inputs := SortInputs(b.inputs), tx := Some(tx)))
  {}

  ghost predicate TallyCovers(tx: Transaction, tally: Tally, rate: nat) {
    && tally.Total? && tally.sats > Sum(ValueOf, tx.output)
    && !Float64.QuotientBelow(tally.sats - Sum(ValueOf, tx.output), Weight(tx), rate)
  }

  lemma TallyFunds(tx: Transaction, amounts: seq<Option<Amount>>, rate: nat)
    ensures TallyCovers(tx, TallyFrom(0, amounts), rate) <==> FundedBy(tx, amounts, rate)
  {
    TallyMeaning(0, amounts);
  }

  lemma SameFunding(tx: Transaction, inputs: seq<InputDataSigned>, tx': Transaction, inputs': seq<InputDataSigned>,
      rate: nat)
    requires Weight(tx) == Weight(tx') && tx.output == tx'.output
    requires KnownSum(Claimed(inputs)) == KnownSum(Claimed(inputs'))
    requires HasMissing(Claimed(inputs)) <==> HasMissing(Claimed(inputs'))
    ensures Funded(tx, inputs, rate) <==> Funded(tx', inputs', rate)
  {}

  lemma AssembledWeight(unsigned: Transaction, inputs: seq<InputDataSigned>)
    requires DistinctOutPoints(inputs)
    ensures Weight(Assemble(unsigned, SortInputs(inputs))) == Weight(Assemble(unsigned, inputs))
  {
    var loose, tx := Assemble(unsigned, inputs), Assemble(unsigned, SortInputs(inputs));
    SortedInputs(inputs);
    MapPermutation(TxinOf, inputs, SortInputs(inputs));
    assert tx == loose.(input := tx.input);
    WeightPermutation(loose, tx.input);
  }

  /** An accepted fee of any size reaches `rate` satoshis for every virtual byte, as documented; and for
      every weight unit, unless both it and the fee asked for exceed 2^53. */
  lemma AcceptedFeeMeetsRate(tx: Transaction, amounts: seq<Option<Amount>>, rate: nat)
    requires FundedBy(tx, amounts, rate)
    requires Weight(tx) <= Float64.TWO53 && rate <= Float64.TWO53
    ensures var fee := KnownSum(amounts) - Sum(ValueOf, tx.output);
            && fee >= rate * VirtualSize(tx)
            && (fee <= Float64.TWO53 || rate * Weight(tx) <= Float64.TWO53 ==> fee >= rate * Weight(tx))
  {
    var fee := KnownSum(amounts) - Sum(ValueOf, tx.output);
    Float64.AcceptedCovers(fee, Weight(tx), rate, VirtualSize(tx));
  }

  /** The documented unit is satoshis per virtual byte; the test divides by weight units. A fee that
      meets the documented floor is still refused exactly when it is short by half a unit of the scaled
      test, which is: below the floor per weight unit, unless both exceed 2^53. The documented floor
      itself is always refused. */
  lemma DocumentedFloorRejectedIff(fee: nat, tx: Transaction, rate: nat)
    requires Weight(tx) <= Float64.TWO53 && 0 < rate <= Float64.TWO53
    requires fee >= rate * VirtualSize(tx)
    ensures Float64.QuotientBelow(fee, Weight(tx), rate) <==> Float64.ShortByHalfUnit(fee, Weight(tx), rate)
    ensures fee <= Float64.TWO53 || rate * Weight(tx) <= Float64.TWO53 ==>
              (Float64.QuotientBelow(fee, Weight(tx), rate) <==> fee < rate * Weight(tx))
    ensures fee == rate * VirtualSize(tx) ==> Float64.QuotientBelow(fee, Weight(tx), rate)
  {
    Float64.FeeTestIff(fee, Weight(tx), rate);
    if fee <= Float64.TWO53 || rate * Weight(tx) <= Float64.TWO53 {
      Float64.FeeTestExact(fee, Weight(tx), rate);
    }
    if fee == rate * VirtualSize(tx) {
      Float64.QuarterRefused(fee, Weight(tx), rate, VirtualSize(tx));
    }
  }

  // ---------------------------------------------------------------- every sequence of calls

  /** A call, with what the backend contributes to it: the error it refuses with, if it does, and its
      answer about the `k`-th registered input. No answers means no backend. */
  datatype Call =
    | CallAddOutput(addr: Address)
    | CallGeneratePsbt(refusal: Option<Error>)
    | CallAddInput(input: InputDataSigned, refusal: Option<Error>)
    | CallGenerateTx(dryRun: bool, answers: Option<nat -> Option<Amount>>)

  function AmountsBy(b: Builder, answers: Option<nat -> Option<Amount>>): seq<Option<Amount>> {
    if answers.None? then Claimed(b.inputs) else seq(|b.inputs|, answers.value)
  }

  function MissingBy(answers: Option<nat -> Option<Amount>>): Error {
    if answers.None? then AmountMissing else FailVerifyAmount
  }

  function Perform(b: Builder, call: Call): Builder {
    match call
    case CallAddOutput(a) => AddOutput(b, a)
    case CallGeneratePsbt(refusal) => if refusal.Some? then b else GeneratePsbt(b).0
    case CallAddInput(i, refusal) => if refusal.Some? then b else AddInput(b, i).0
    case CallGenerateTx(dryRun, answers) =>
      if dryRun then b else Finalize(b, AmountsBy(b, answers), MissingBy(answers)).0
  }

  function PerformAll(b: Builder, calls: seq<Call>): Builder
    decreases calls
  {
    if calls == [] then b else PerformAll(Perform(b, calls[0]), calls[1..])
  }

  /** The template was built from the `n` addresses known when it was frozen. */
  ghost predicate FrozenTemplate(b: Builder, n: nat) {
    && n <= |b.outputs| && b.minPeer <= n
    && b.psbt == Some(UnsignedTx(b.outputs[..n], b.denomination))
  }

  /** The final transaction carries the `k` inputs known when it was built. */
  ghost predicate FrozenFinal(b: Builder, k: nat) {
    && k <= |b.inputs| && b.psbt.Some?
    && b.tx == Some(Assemble(b.psbt.value, b.inputs[..k]))
    && StrictlyIncreasing(b.tx.value.input)
  }

  /** What holds of a builder whatever its backend answered. */
  ghost predicate Inv(b: Builder) {
    && Distinct(b.outputs)
    && DistinctOutPoints(b.inputs)
    && (b.psbt.Some? ==> exists n: nat :: FrozenTemplate(b, n))
    && (b.tx.Some? ==> exists k: nat :: FrozenFinal(b, k))
  }

  /** What holds in addition when finalization consults no backend. */
  ghost predicate InvFunded(b: Builder) {
    b.tx.Some? ==> exists k: nat :: FrozenFinal(b, k) && Funded(b.tx.value, b.inputs[..k], b.fee)
  }

  /** Frozen parts stay, and nothing collected is lost. */
  ghost predicate Keeps(b: Builder, b': Builder) {
    && (b.psbt.Some? ==> b'.psbt == b.psbt)
    && (b.tx.Some? ==> b'.tx == b.tx)
    && b.outputs <= b'.outputs
    && multiset(b.inputs) <= multiset(b'.inputs)
    && b' == b.(outputs := b'.outputs, psbt := b'.psbt, inputs := b'.inputs, tx := b'.tx)
  }

  lemma TemplateHasNoInputs(b: Builder)
    requires Inv(b)
    ensures b.psbt.Some? ==> b.psbt.value.input == []
  {
    if b.psbt.Some? {
      var n: nat :| FrozenTemplate(b, n);
    }
  }

  lemma AddOutputInv(b: Builder, a: Address)
    requires Inv(b)
    ensures Inv(AddOutput(b, a)) && Keeps(b, AddOutput(b, a))
    ensures InvFunded(b) ==> InvFunded(AddOutput(b, a))
  {
    var b' := AddOutput(b, a);
    AddOutputKeepsDistinct(b, a);
    if b.psbt.Some? {
      var n: nat :| FrozenTemplate(b, n);
      assert b'.outputs[..n] == b.outputs[..n];
      assert FrozenTemplate(b', n);
    }
    FinalCarriesOver(b, b');
  }

  lemma FinalCarriesOver(b: Builder, b': Builder)
    requires b'.tx == b.tx && b'.psbt == b.psbt && b.inputs <= b'.inputs && b'.fee == b.fee
    ensures (exists k: nat :: FrozenFinal(b, k)) ==> (exists k: nat :: FrozenFinal(b', k))
    ensures InvFunded(b) ==> InvFunded(b')
  {
    forall k: nat | FrozenFinal(b, k)
      ensures FrozenFinal(b', k) && b'.inputs[..k] == b.inputs[..k]
    {
      assert b'.inputs[..k] == b.inputs[..k];
    }
  }

  lemma GeneratePsbtInv(b: Builder)
    requires Inv(b)
    ensures Inv(GeneratePsbt(b).0) && Keeps(b, GeneratePsbt(b).0)
    ensures InvFunded(b) ==> InvFunded(GeneratePsbt(b).0)
    ensures !GeneratePsbt(b).1.Ok? ==> GeneratePsbt(b).0 == b
  {
    var b' := GeneratePsbt(b).0;
    if GeneratePsbt(b).1.Ok? {
      DistinctCardinality(b.outputs);
      assert b.outputs[..|b.outputs|] == b.outputs;
      assert FrozenTemplate(b', |b.outputs|);
      assert b.tx.None?;
    }
  }

  lemma AddInputInv(b: Builder, i: InputDataSigned)
    requires Inv(b)
    ensures Inv(AddInput(b, i).0) && Keeps(b, AddInput(b, i).0)
    ensures InvFunded(b) ==> InvFunded(AddInput(b, i).0)
    ensures !AddInput(b, i).1.Ok? ==> AddInput(b, i).0 == b
  {
    var b' := AddInput(b, i).0;
    if AddInput(b, i).1.Ok? {
      forall k | 0 <= k < |b.inputs|
        ensures OutPointOf(b.inputs[k]) != OutPointOf(i)
      {
        assert OutPoints(b.inputs)[k] in OutPoints(b.inputs);
      }
    }
    if b.psbt.Some? {
      var n: nat :| FrozenTemplate(b, n);
      assert FrozenTemplate(b', n);
    }
    FinalCarriesOver(b, b');
  }

  /** For any amounts the backend may report; a rejected finalization loses no input. */
  lemma FinalizeInv(b: Builder, amounts: seq<Option<Amount>>, missing: Error)
    requires Inv(b)
    ensures var b' := Finalize(b, amounts, missing).0;
            && Inv(b') && Keeps(b, b')
            && multiset(b'.inputs) == multiset(b.inputs)
  {
    FinalizeChanges(b, amounts, missing);
    StepInv(b, Finalize(b, amounts, missing).0);
  }

  lemma FinalizeStores(b: Builder, amounts: seq<Option<Amount>>, missing: Error)
    ensures Finalize(b, amounts, missing).1.Ok? <==> b.tx.None? && Finalize(b, amounts, missing).0.tx.Some?
  {}

  /** The three ways a finalization can leave the builder. */
  ghost predicate Concludes(b: Builder, b': Builder) {
    || b' == b
    || (&& b.tx.None? && b.psbt.Some?
        && b' == b.(inputs := SortInputs(b.inputs), tx := b'.tx)
        && (b'.tx.Some? ==> b'.tx == Some(Assemble(b.psbt.value, b'.inputs))))
  }

  lemma StepInv(b: Builder, b': Builder)
    requires Inv(b) && Concludes(b, b')
    ensures Inv(b') && Keeps(b, b') && multiset(b'.inputs) == multiset(b.inputs)
  {
    if b' != b {
      SortedBuilderInv(b, b');
    }
  }

  lemma SortedBuilderInv(b: Builder, b': Builder)
    requires Inv(b) && b.tx.None? && b.psbt.Some?
    requires b' == b.(inputs := SortInputs(b.inputs), tx := b'.tx)
    requires b'.tx.Some? ==> b'.tx == Some(Assemble(b.psbt.value, b'.inputs))
    ensures Inv(b') && Keeps(b, b') && multiset(b'.inputs) == multiset(b.inputs)
  {
    SortedInputs(b.inputs);
    TemplateHasNoInputs(b);
    var n: nat :| FrozenTemplate(b, n);
    assert FrozenTemplate(b', n);
    assert b'.inputs[..|b'.inputs|] == b'.inputs;
    if b'.tx.Some? {
      assert b'.tx.value.input == Map(TxinOf, b'.inputs);
      assert FrozenFinal(b', |b'.inputs|);
    }
  }

  lemma FinalizeChanges(b: Builder, amounts: seq<Option<Amount>>, missing: Error)
    ensures Concludes(b, Finalize(b, amounts, missing).0)
  {}

  lemma FinalizeClaimedFunded(b: Builder)
    requires Inv(b) && InvFunded(b)
    ensures InvFunded(FinalizeClaimed(b).0)
  {
    var b' := FinalizeClaimed(b).0;
    TemplateHasNoInputs(b);
    if b.tx.None? && b'.tx.Some? {
      FinalizeSucceedsIff(b);
      assert b'.inputs[..|b'.inputs|] == b'.inputs;
      assert FrozenFinal(b', |b'.inputs|);
    }
  }

  lemma PerformInv(b: Builder, call: Call)
    requires Inv(b)
    ensures Inv(Perform(b, call)) && Keeps(b, Perform(b, call))
  {
    match call
    case CallAddOutput(a) => AddOutputInv(b, a);
    case CallGeneratePsbt(_) => GeneratePsbtInv(b);
    case CallAddInput(i, _) => AddInputInv(b, i);
    case CallGenerateTx(_, answers) => FinalizeInv(b, AmountsBy(b, answers), MissingBy(answers));
  }

  lemma PerformFunded(b: Builder, call: Call)
    requires Inv(b) && InvFunded(b)
    requires call.CallGenerateTx? ==> call.answers.None?
    ensures InvFunded(Perform(b, call))
  {
    match call
    case CallAddOutput(a) => AddOutputInv(b, a);
    case CallGeneratePsbt(_) => GeneratePsbtInv(b);
    case CallAddInput(i, _) => AddInputInv(b, i);
    case CallGenerateTx(_, _) => FinalizeClaimedFunded(b);
  }

  lemma KeepsTransitive(a: Builder, b: Builder, c: Builder)
    requires Keeps(a, b) && Keeps(b, c)
    ensures Keeps(a, c)
  {}

  /** Over every sequence of calls, whatever a backend answers or refuses, the invariant holds, what is
      frozen stays frozen and no output or input is lost. */
  lemma {:induction false} EveryRunKeepsInvariant(b: Builder, calls: seq<Call>)
    requires Inv(b)
    ensures Inv(PerformAll(b, calls)) && Keeps(b, PerformAll(b, calls))
    decreases calls
  {
    if calls != [] {
      PerformInv(b, calls[0]);
      EveryRunKeepsInvariant(Perform(b, calls[0]), calls[1..]);
      KeepsTransitive(b, Perform(b, calls[0]), PerformAll(b, calls));
    }
  }

  /** Call `j` froze `tx`, which carries the inputs registered by then in order, and is funded by the
      amounts that this call went by. */
  ghost predicate FrozenBy(b: Builder, calls: seq<Call>, j: nat, tx: Transaction) {
    && j < |calls| && calls[j].CallGenerateTx? && !calls[j].dryRun
    && var before := PerformAll(b, calls[..j]);
    && before.tx.None? && before.psbt.Some?
    && tx == Assemble(before.psbt.value, SortInputs(before.inputs))
    && FundedBy(tx, AmountsBy(before, calls[j].answers), before.fee)
  }

  /** Over every sequence of calls, with or without a backend: the final transaction was frozen by one
      call, and the amounts accepted in that call exceed its outputs by exactly the fee that passed. */
  lemma {:induction false} EveryFinalTxIsFunded(b: Builder, calls: seq<Call>)
    requires Inv(b) && b.tx.None?
    ensures var end := PerformAll(b, calls);
            end.tx.Some? ==> exists j: nat :: FrozenBy(b, calls, j, end.tx.value)
    decreases calls
  {
    if calls != [] {
      var next, rest := Perform(b, calls[0]), calls[1..];
      PerformInv(b, calls[0]);
      if next.tx.Some? {
        FreezingCall(b, calls[0]);
        EveryRunKeepsInvariant(next, rest);
        assert calls[..0] == [];
        assert FrozenBy(b, calls, 0, next.tx.value);
      } else {
        EveryFinalTxIsFunded(next, rest);
        if PerformAll(b, calls).tx.Some? {
          var j: nat :| FrozenBy(next, rest, j, PerformAll(b, calls).tx.value);
          assert calls[..j + 1][0] == calls[0] && calls[..j + 1][1..] == rest[..j];
          assert FrozenBy(b, calls, j + 1, PerformAll(b, calls).tx.value);
        }
      }
    }
  }

  lemma FreezingCall(b: Builder, call: Call)
    requires b.tx.None? && Perform(b, call).tx.Some?
    ensures call.CallGenerateTx? && !call.dryRun && b.psbt.Some?
    ensures var tx := Assemble(b.psbt.value, SortInputs(b.inputs));
            Perform(b, call).tx == Some(tx) && FundedBy(tx, AmountsBy(b, call.answers), b.fee)
  {
    if call.CallGenerateTx? && !call.dryRun {
      FinalizeStores(b, AmountsBy(b, call.answers), MissingBy(call.answers));
      FinalizeByAmountsIff(b, AmountsBy(b, call.answers), MissingBy(call.answers));
    }
  }

  /** Without a backend the amounts are the claims of the inputs in the final transaction. */
  lemma {:induction false} EveryClaimedRunIsFunded(b: Builder, calls: seq<Call>)
    requires Inv(b) && InvFunded(b)
    requires forall j :: 0 <= j < |calls| && calls[j].CallGenerateTx? ==> calls[j].answers.None?
    ensures InvFunded(PerformAll(b, calls))
    decreases calls
  {
    if calls != [] {
      PerformInv(b, calls[0]);
      PerformFunded(b, calls[0]);
      EveryClaimedRunIsFunded(Perform(b, calls[0]), calls[1..]);
    }
  }

  lemma NewInv(minPeer: nat, denomination: Amount, fee: nat)
    ensures var b := New(minPeer, denomination, fee);
            && Inv(b) && InvFunded(b) && b.outputs == [] && b.inputs == [] && b.psbt.None? && b.tx.None?
            && b.minPeer == minPeer && b.denomination == denomination && b.fee == fee
  {}

  /** Every builder ever in use: a new one after any calls. */
  lemma EveryNewBuilder(minPeer: nat, denomination: Amount, fee: nat, calls: seq<Call>)
    ensures var b := PerformAll(New(minPeer, denomination, fee), calls);
            && Inv(b) && b.minPeer == minPeer && b.denomination == denomination && b.fee == fee
            && (b.tx.Some? ==> exists j: nat :: FrozenBy(New(minPeer, denomination, fee), calls, j, b.tx.value))
  {
    NewInv(minPeer, denomination, fee);
    EveryRunKeepsInvariant(New(minPeer, denomination, fee), calls);
    EveryFinalTxIsFunded(New(minPeer, denomination, fee), calls);
  }
}
