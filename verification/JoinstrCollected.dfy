/** What a participant has collected at any time of a run: exactly the peers, addresses and inputs that its
    polls took in the round they belong to, and its own address. */
module JoinstrCollected {
  import opened Permutations
  import opened Bitcoin
  import opened Nostr
  import opened CoinJoinSpec
  import opened CoinJoinLaws
  import opened Signer
  import opened JoinstrSpec
  import opened JoinstrLaws
  import opened JoinstrOutcomes

  function OutputsOf(s: State): seq<Address> {
    if Current(s).Some? then Current(s).value.outputs else []
  }

  function InputsOf(s: State): seq<InputDataSigned> {
    if Current(s).Some? then Current(s).value.inputs else []
  }

  /** A poll of the peer round takes a request of this peer. */
  predicate TakesPeer(s: State, t: Tick, peer: Npub) {
    s.pc.PeerRound? && Polls(s, t) && Requesting(t) == Some(peer)
  }

  /** A poll of the output round takes this address, which is valid for the pool's network. */
  predicate TakesOutput(s: State, t: Tick, a: Address) {
    s.pc.OutputRound? && Polls(s, t) && HasPayload(s.inner) && ValidOutput(s.inner, t) == Some(a)
  }

  /** A poll of the input round takes this input. */
  predicate TakesInput(s: State, t: Tick, i: InputDataSigned) {
    s.pc.InputRound? && Polls(s, t) && Offered(t) == Some(i)
  }

  /** The participant is beyond the point at which its own address was collected. */
  predicate PastOwnOutput(s: State) {
    !(s.pc.Joining? || s.pc.DummyJoin? || s.pc.PeerRound? || s.pc.OwnOutput?)
  }

  // ---------------------------------------------------------------- one step

  /** The step collects the addresses it takes, and the own one when it is its turn. */
  ghost predicate StepCollectsOutputs(s: State, t: Tick, s': State) {
    && s'.inner.output == s.inner.output && (s'.pc.Joining? ==> s.pc.Joining?)
    && (Current(s').Some? ==>
          && (Current(s).Some? || s.pc.Joining?)
          && (PastOwnOutput(s') <==> PastOwnOutput(s) || s.pc.OwnOutput?)
          && forall a :: a in OutputsOf(s') <==>
               a in OutputsOf(s) || TakesOutput(s, t, a) || (s.pc.OwnOutput? && s.inner.output == Some(a)))
  }

  lemma GatheringCollectsOutputs(s: State, t: Tick)
    requires Sound(s) && (s.pc.Joining? || s.pc.DummyJoin? || s.pc.PeerRound?)
    ensures StepCollectsOutputs(s, t, StepGathering(s, t))
  {}

  lemma OutputRoundCollectsOutputs(s: State, t: Tick)
    requires Sound(s) && s.pc.OutputRound?
    ensures StepCollectsOutputs(s, t, StepOutputs(s, t))
  {
    var cj := s.pc.cj;
    OutputRoundCollects(s.inner, s.pc.until, s.pc.seen, cj, t);
    var s' := StepOutputs(s, t);
    if s'.pc.OutputRound? {
      forall a
        ensures a in s'.pc.cj.outputs <==> a in cj.outputs || TakesOutput(s, t, a)
      {
        assert a in s'.pc.cj.outputs <==> a in Elements(s'.pc.cj.outputs);
        assert a in cj.outputs <==> a in Elements(cj.outputs);
      }
    }
  }

  lemma OwnOutputCollectsOutputs(s: State, t: Tick)
    requires Sound(s) && s.pc.OwnOutput?
    ensures StepCollectsOutputs(s, t, StepOutputs(s, t))
  {
    var cj := s.pc.cj;
    OwnOutputOutcome(s.inner, s.pc.seen, cj, t);
    var s' := StepOutputs(s, t);
    if s'.pc.OutputRound? {
      forall a
        ensures a in s'.pc.cj.outputs <==> a in cj.outputs || s.inner.output == Some(a)
      {
        assert a in s'.pc.cj.outputs <==> a in Elements(s'.pc.cj.outputs);
        assert a in cj.outputs <==> a in Elements(cj.outputs);
      }
    }
  }

  lemma OutputCheckCollectsOutputs(s: State, t: Tick)
    requires Sound(s) && s.pc.OutputCheck?
    ensures StepCollectsOutputs(s, t, StepOutputs(s, t))
  {
    OutputCheckOutcome(s.inner, s.pc.until, s.pc.seen, s.pc.cj, t);
  }

  /** From signing on the builder's outputs and the own address stay. */
  ghost predicate KeepsOutputs(s: State, s': State) {
    && s'.inner.output == s.inner.output && Current(s) == s.inner.coinjoin && Current(s') == s'.inner.coinjoin
    && PastOwnOutput(s) && PastOwnOutput(s') && (Current(s').Some? ==> Current(s).Some?)
    && OutputsOf(s') == OutputsOf(s)
  }

  lemma SignRoundKeepsOutputs(n: Inner, signer: Option<Wallet>, t: Tick)
    requires AtSign(n)
    ensures KeepsOutputs(State(n, SignRound), StepSignRound(n, signer, t))
  {
    SignRoundKeepsBuilder(n, signer, t);
    SignRoundOutcome(n, signer, t);
  }

  lemma InputRoundPhase(n: Inner, until: u64, t: Tick)
    requires n.coinjoin.Some?
    ensures var pc := StepInputRound(n, until, t).pc;
            pc == InputRound(until) || pc == InputCheck(until) || pc.Failed? || pc.Aborted?
  {
    var r := StepInputRound(n, until, t);
    InputRoundOutcomes(n, until, t);
    if r != State(n, InputCheck(until)) && r != State(n, InputRound(until)) && !(r.inner == n && r.pc.Failed?) {
      var i :| r == RegisterAndFinalize(n, until, i);
      RegisterPhase(n, until, i);
    }
  }

  lemma InputRoundKeepsOutputs(n: Inner, until: u64, t: Tick)
    requires AtInputs(n)
    ensures KeepsOutputs(State(n, InputRound(until)), StepInputRound(n, until, t))
  {
    InputRoundOutcome(n, until, t);
    InputRoundPhase(n, until, t);
  }

  lemma RegisterPhase(n: Inner, until: u64, i: InputDataSigned)
    requires n.coinjoin.Some?
    ensures var pc := RegisterAndFinalize(n, until, i).pc;
            pc == InputRound(until) || pc == InputCheck(until) || pc.Aborted?
  {}

  /** Steps that look at the clock or broadcast, and halted runs, change neither builder nor peers. */
  lemma QuietSteps(signer: Option<Wallet>, s: State, t: Tick)
    requires Sound(s)
    requires s.pc.InputDeadline? || s.pc.InputStart? || s.pc.InputCheck? || s.pc.Broadcasting?
             || s.pc.Finished? || s.pc.Failed? || s.pc.Aborted?
    ensures var s' := StepInputs(signer, s, t);
            && s'.inner == s.inner.(finalTx := s'.inner.finalTx, phase := s'.inner.phase)
            && Current(s) == s.inner.coinjoin && Current(s') == s'.inner.coinjoin
            && PastOwnOutput(s') && !s'.pc.Joining? && (s.pc.Failed? ==> s'.pc.Failed?)
  {}

  lemma InputsKeepOutputs(signer: Option<Wallet>, s: State, t: Tick)
    requires Sound(s) && PastOwnOutput(s) && !s.pc.OutputRound? && !s.pc.OutputCheck?
    ensures KeepsOutputs(s, StepInputs(signer, s, t))
  {
    if s.pc.SignRound? {
      SignRoundKeepsOutputs(s.inner, signer, t);
    } else if s.pc.InputRound? {
      InputRoundKeepsOutputs(s.inner, s.pc.until, t);
    } else {
      QuietSteps(signer, s, t);
    }
  }

  lemma KeepingCollects(s: State, t: Tick, s': State)
    requires KeepsOutputs(s, s') && !s.pc.OutputRound?
    ensures StepCollectsOutputs(s, t, s')
  {}

  lemma EveryStepCollectsOutputs(signer: Option<Wallet>, s: State, t: Tick)
    requires Sound(s)
    ensures StepCollectsOutputs(s, t, Step(signer, s, t))
  {
    if s.pc.Joining? || s.pc.DummyJoin? || s.pc.PeerRound? {
      GatheringCollectsOutputs(s, t);
    } else if s.pc.OwnOutput? {
      OwnOutputCollectsOutputs(s, t);
    } else if s.pc.OutputRound? {
      OutputRoundCollectsOutputs(s, t);
    } else if s.pc.OutputCheck? {
      OutputCheckCollectsOutputs(s, t);
    } else {
      InputsKeepOutputs(signer, s, t);
      KeepingCollects(s, t, StepInputs(signer, s, t));
    }
  }

  /** A step that does not fail records the peers it takes. */
  ghost predicate StepRecordsPeers(s: State, t: Tick, s': State) {
    s'.pc.Failed? || (!s.pc.Failed? && forall p :: p in s'.inner.peers <==> p in s.inner.peers || TakesPeer(s, t, p))
  }

  lemma PeerRoundRecordsPeers(s: State, t: Tick)
    requires Sound(s) && s.pc.PeerRound?
    ensures StepRecordsPeers(s, t, StepGathering(s, t))
  {
    PeerRoundOutcome(s.inner, s.pc.until, s.pc.early, s.pc.seen, s.pc.cj, t);
    forall p
      ensures p in s.pc.seen <==> p in s.inner.peers
    {
      assert p in s.inner.peers <==> p in Elements(s.inner.peers);
    }
  }

  lemma OtherStepsKeepPeers(signer: Option<Wallet>, s: State, t: Tick)
    requires Sound(s) && !s.pc.PeerRound?
    ensures Step(signer, s, t).inner.peers == s.inner.peers
    ensures s.pc.Failed? ==> Step(signer, s, t).pc.Failed?
  {
    if s.pc.Joining? || s.pc.DummyJoin? {
      GatheringKeepsPeers(s, t);
    } else if s.pc.OwnOutput? || s.pc.OutputRound? || s.pc.OutputCheck? {
      OutputsKeepPeers(s, t);
    } else if s.pc.SignRound? {
      SignRoundOutcome(s.inner, signer, t);
    } else if s.pc.InputRound? {
      InputRoundOutcome(s.inner, s.pc.until, t);
    } else {
      QuietSteps(signer, s, t);
    }
  }

  lemma GatheringKeepsPeers(s: State, t: Tick)
    requires s.pc.Joining? || s.pc.DummyJoin?
    ensures StepGathering(s, t).inner.peers == s.inner.peers
  {}

  lemma OutputsKeepPeers(s: State, t: Tick)
    requires s.pc.OwnOutput? || s.pc.OutputRound? || s.pc.OutputCheck?
    ensures StepOutputs(s, t).inner.peers == s.inner.peers
  {}

  lemma EveryStepRecordsPeers(signer: Option<Wallet>, s: State, t: Tick)
    requires Sound(s)
    ensures StepRecordsPeers(s, t, Step(signer, s, t))
  {
    if s.pc.PeerRound? {
      PeerRoundRecordsPeers(s, t);
    } else {
      OtherStepsKeepPeers(signer, s, t);
    }
  }

  /** The step registers the input it takes, unless its outpoint is registered. */
  ghost predicate StepRegisters(s: State, t: Tick, s': State) {
    Current(s').Some? ==>
      forall x :: x in InputsOf(s') <==>
        x in InputsOf(s) || (TakesInput(s, t, x) && !Registered(InputsOf(s), OutPointOf(x)))
  }

  lemma NothingTaken(s: State, t: Tick, s': State)
    requires Current(s') == Current(s) && forall x :: !TakesInput(s, t, x)
    ensures StepRegisters(s, t, s')
  {}

  lemma OneTaken(s: State, t: Tick, s': State, i: InputDataSigned)
    requires Current(s).Some? && Current(s').Some? && GainsInput(Current(s).value, Current(s').value, i)
    requires forall x :: TakesInput(s, t, x) <==> x == i
    ensures StepRegisters(s, t, s')
  {
    GainedMembers(Current(s).value, Current(s').value, i);
  }

  lemma OfferGains(n: Inner, until: u64, t: Tick)
    requires AtInputs(n) && t.now < until && Offered(t).Some?
    ensures var s' := StepInputRound(n, until, t);
            && Current(s') == s'.inner.coinjoin && s'.inner.coinjoin.Some?
            && GainsInput(n.coinjoin.value, s'.inner.coinjoin.value, Offered(t).value)
  {
    InputRoundOutcome(n, until, t);
    InputRoundPhase(n, until, t);
  }

  lemma OfferIsTaken(n: Inner, until: u64, t: Tick)
    requires AtInputs(n) && t.now < until && Offered(t).Some?
    ensures forall x :: TakesInput(State(n, InputRound(until)), t, x) <==> x == Offered(t).value
  {}

  lemma OfferRegisters(n: Inner, until: u64, t: Tick)
    requires AtInputs(n) && t.now < until && Offered(t).Some?
    ensures StepRegisters(State(n, InputRound(until)), t, StepInputRound(n, until, t))
  {
    OfferGains(n, until, t);
    OfferIsTaken(n, until, t);
    OneTaken(State(n, InputRound(until)), t, StepInputRound(n, until, t), Offered(t).value);
  }

  lemma NoOfferRegistersNone(n: Inner, until: u64, t: Tick)
    requires AtInputs(n) && !(t.now < until && Offered(t).Some?)
    ensures StepRegisters(State(n, InputRound(until)), t, StepInputRound(n, until, t))
  {
    InputRoundOutcome(n, until, t);
    NothingTaken(State(n, InputRound(until)), t, StepInputRound(n, until, t));
  }

  lemma InputRoundRegisters(n: Inner, until: u64, t: Tick)
    requires AtInputs(n)
    ensures StepRegisters(State(n, InputRound(until)), t, StepInputRound(n, until, t))
  {
    if t.now < until && Offered(t).Some? {
      OfferRegisters(n, until, t);
    } else {
      NoOfferRegistersNone(n, until, t);
    }
  }

  lemma GainedMembers(b: Builder, b': Builder, i: InputDataSigned)
    requires GainsInput(b, b', i)
    ensures forall x :: x in b'.inputs <==> x in b.inputs || (x == i && !Registered(b.inputs, OutPointOf(i)))
  {
    forall x
      ensures x in b'.inputs <==> x in b.inputs || (x == i && !Registered(b.inputs, OutPointOf(i)))
    {
      assert x in b'.inputs <==> x in multiset(b'.inputs);
      assert x in b.inputs <==> x in multiset(b.inputs);
    }
  }

  lemma BeforeInputsNone(s: State)
    requires Sound(s) && !s.pc.Failed? && !s.pc.Aborted?
    requires !PastOwnOutput(s) || s.pc.OutputRound? || s.pc.OutputCheck?
    ensures InputsOf(s) == []
  {}

  lemma GatheringRegistersNone(s: State, t: Tick)
    requires Sound(s) && (s.pc.Joining? || s.pc.DummyJoin? || s.pc.PeerRound?)
    ensures InputsOf(StepGathering(s, t)) == []
  {}

  lemma OutputsRegisterNone(s: State, t: Tick)
    requires Sound(s) && (s.pc.OwnOutput? || s.pc.OutputRound? || s.pc.OutputCheck?)
    ensures InputsOf(StepOutputs(s, t)) == []
  {}

  lemma SignRoundRegistersNone(n: Inner, signer: Option<Wallet>, t: Tick)
    requires AtSign(n)
    ensures StepRegisters(State(n, SignRound), t, StepSignRound(n, signer, t))
  {
    SignRoundKeepsBuilder(n, signer, t);
  }

  lemma QuietRegistersNone(s: State, t: Tick, s': State)
    requires Current(s) == s.inner.coinjoin == s'.inner.coinjoin == Current(s') && !s.pc.InputRound?
    ensures StepRegisters(s, t, s')
  {}

  lemma EveryStepRegisters(signer: Option<Wallet>, s: State, t: Tick)
    requires Sound(s)
    ensures StepRegisters(s, t, Step(signer, s, t))
  {
    if s.pc.Joining? || s.pc.DummyJoin? || s.pc.PeerRound? {
      BeforeInputsNone(s);
      GatheringRegistersNone(s, t);
    } else if s.pc.OwnOutput? || s.pc.OutputRound? || s.pc.OutputCheck? {
      BeforeInputsNone(s);
      OutputsRegisterNone(s, t);
    } else if s.pc.InputRound? {
      InputRoundRegisters(s.inner, s.pc.until, t);
    } else if s.pc.SignRound? {
      SignRoundRegistersNone(s.inner, signer, t);
    } else {
      QuietSteps(signer, s, t);
      QuietRegistersNone(s, t, StepInputs(signer, s, t));
    }
  }

  // ---------------------------------------------------------------- a whole run

  /** The states of a run, tick by tick. */
  ghost predicate TraceAt(signer: Option<Wallet>, states: nat -> State, ticks: nat -> Tick, k: nat) {
    Sound(states(k)) && states(k + 1) == Step(signer, states(k), ticks(k))
  }

  ghost predicate Trace(signer: Option<Wallet>, states: nat -> State, ticks: nat -> Tick, lo: nat) {
    forall k: nat :: lo <= k ==> TraceAt(signer, states, ticks, k)
  }

  function StatesOf(signer: Option<Wallet>, start: State, ticks: nat -> Tick, lo: nat): nat -> State {
    (k: nat) => if k < lo then start else Run(Stepper(signer), start, ticks, lo, k)
  }

  lemma RunIsTrace(signer: Option<Wallet>, start: State, ticks: nat -> Tick, lo: nat)
    requires Sound(start)
    ensures Trace(signer, StatesOf(signer, start, ticks, lo), ticks, lo)
  {
    forall k: nat | lo <= k
      ensures TraceAt(signer, StatesOf(signer, start, ticks, lo), ticks, k)
    {
      RunSound(signer, start, ticks, lo, k);
      NextInRun(Stepper(signer), start, ticks, lo, k);
    }
  }

  lemma NextInRun(step: (State, Tick) -> State, start: State, ticks: nat -> Tick, lo: nat, k: nat)
    requires lo <= k
    ensures Run(step, start, ticks, lo, k + 1) == step(Run(step, start, ticks, lo, k), ticks(k))
  {}

  ghost predicate TookPeer(states: nat -> State, ticks: nat -> Tick, lo: nat, hi: nat, p: Npub) {
    exists j: nat :: lo <= j < hi && TakesPeer(states(j), ticks(j), p)
  }

  ghost predicate TookOutput(states: nat -> State, ticks: nat -> Tick, lo: nat, hi: nat, a: Address) {
    exists j: nat :: lo <= j < hi && TakesOutput(states(j), ticks(j), a)
  }

  /** An input with this outpoint was taken. */
  ghost predicate TookOutPoint(states: nat -> State, ticks: nat -> Tick, lo: nat, hi: nat, o: OutPoint) {
    exists j: nat, x :: lo <= j < hi && TakesInput(states(j), ticks(j), x) && OutPointOf(x) == o
  }

  /** The input was taken, and none with its outpoint before it. */
  ghost predicate TookFirst(states: nat -> State, ticks: nat -> Tick, lo: nat, hi: nat, x: InputDataSigned) {
    exists j: nat :: && lo <= j < hi && TakesInput(states(j), ticks(j), x)
                     && !TookOutPoint(states, ticks, lo, j, OutPointOf(x))
  }

  /** What the builder holds, against what the polls took. */
  ghost predicate OutputsAre(s: State, a: Address, took: bool) {
    && (s.pc.Joining? ==> !took)
    && (Current(s).Some? ==> (a in OutputsOf(s) <==> took || (PastOwnOutput(s) && s.inner.output == Some(a))))
  }

  lemma {:induction false} OutputsCollected(
    signer: Option<Wallet>, states: nat -> State, ticks: nat -> Tick, lo: nat, hi: nat, a: Address)
    requires lo <= hi && Trace(signer, states, ticks, lo)
    requires OutputsAre(states(lo), a, false)
    ensures OutputsAre(states(hi), a, TookOutput(states, ticks, lo, hi, a))
    decreases hi
  {
    if lo < hi {
      var k := hi - 1;
      OutputsCollected(signer, states, ticks, lo, k, a);
      assert TraceAt(signer, states, ticks, k);
      EveryStepCollectsOutputs(signer, states(k), ticks(k));
      OutputsAccumulate(states(k), ticks(k), states(k + 1), a, TookOutput(states, ticks, lo, k, a));
      TookOutputStep(states, ticks, lo, k, a);
    }
  }

  lemma TookOutputStep(states: nat -> State, ticks: nat -> Tick, lo: nat, k: nat, a: Address)
    requires lo <= k
    ensures TookOutput(states, ticks, lo, k + 1, a) <==>
              TookOutput(states, ticks, lo, k, a) || TakesOutput(states(k), ticks(k), a)
  {}

  lemma OutputsAccumulate(s: State, t: Tick, s': State, a: Address, took: bool)
    requires StepCollectsOutputs(s, t, s') && OutputsAre(s, a, took)
    ensures OutputsAre(s', a, took || TakesOutput(s, t, a))
  {}

  lemma {:induction false} PeersCollected(
    signer: Option<Wallet>, states: nat -> State, ticks: nat -> Tick, lo: nat, hi: nat, p: Npub)
    requires lo <= hi && Trace(signer, states, ticks, lo) && states(lo).inner.peers == []
    ensures states(hi).pc.Failed? || (p in states(hi).inner.peers <==> TookPeer(states, ticks, lo, hi, p))
    decreases hi
  {
    if lo < hi {
      var k := hi - 1;
      PeersCollected(signer, states, ticks, lo, k, p);
      assert TraceAt(signer, states, ticks, k);
      EveryStepRecordsPeers(signer, states(k), ticks(k));
      TookPeerStep(states, ticks, lo, k, p);
    }
  }

  lemma TookPeerStep(states: nat -> State, ticks: nat -> Tick, lo: nat, k: nat, p: Npub)
    requires lo <= k
    ensures TookPeer(states, ticks, lo, k + 1, p) <==>
              TookPeer(states, ticks, lo, k, p) || TakesPeer(states(k), ticks(k), p)
  {}

  // ---------------------------------------------------------------- inputs

  /** The input is held exactly if it was the first taken with its outpoint, and its outpoint is registered
      exactly if some input with it was taken. */
  ghost predicate InputsAre(s: State, x: InputDataSigned, first: bool, took: bool) {
    && (s.pc.Joining? ==> !first && !took)
    && (Current(s).Some? ==> (x in InputsOf(s) <==> first) && (Registered(InputsOf(s), OutPointOf(x)) <==> took))
  }

  /** An input with this outpoint is taken. */
  ghost predicate TakesOutPoint(s: State, t: Tick, o: OutPoint) {
    exists x :: TakesInput(s, t, x) && OutPointOf(x) == o
  }

  lemma RegisteredIff(inputs: seq<InputDataSigned>, o: OutPoint)
    ensures Registered(inputs, o) <==> exists x :: x in inputs && OutPointOf(x) == o
  {
    if x :| x in inputs && OutPointOf(x) == o {
      var k :| 0 <= k < |inputs| && inputs[k] == x;
      assert inputs[k].txin.previousOutput == o;
    }
    if k :| 0 <= k < |inputs| && inputs[k].txin.previousOutput == o {
      assert inputs[k] in inputs && OutPointOf(inputs[k]) == o;
    }
  }

  lemma InputsAccumulate(s: State, t: Tick, s': State, x: InputDataSigned, first: bool, took: bool)
    requires StepRegisters(s, t, s') && StepCollectsOutputs(s, t, s') && InputsAre(s, x, first, took)
    ensures InputsAre(s', x, first || (TakesInput(s, t, x) && !took), took || TakesOutPoint(s, t, OutPointOf(x)))
  {
    var o := OutPointOf(x);
    RegisteredIff(InputsOf(s), o);
    RegisteredIff(InputsOf(s'), o);
    if Current(s').Some? {
      if y :| TakesInput(s, t, y) && OutPointOf(y) == o {
        assert Registered(InputsOf(s), o) || y in InputsOf(s');
      }
    }
  }

  lemma {:induction false} InputsCollected(
    signer: Option<Wallet>, states: nat -> State, ticks: nat -> Tick, lo: nat, hi: nat, x: InputDataSigned)
    requires lo <= hi && Trace(signer, states, ticks, lo)
    requires InputsAre(states(lo), x, false, false)
    ensures InputsAre(states(hi), x, TookFirst(states, ticks, lo, hi, x),
              TookOutPoint(states, ticks, lo, hi, OutPointOf(x)))
    decreases hi
  {
    if lo < hi {
      var k := hi - 1;
      InputsCollected(signer, states, ticks, lo, k, x);
      assert TraceAt(signer, states, ticks, k);
      EveryStepRegisters(signer, states(k), ticks(k));
      EveryStepCollectsOutputs(signer, states(k), ticks(k));
      InputsAccumulate(
        states(k), ticks(k), states(k + 1), x,
        TookFirst(states, ticks, lo, k, x), TookOutPoint(states, ticks, lo, k, OutPointOf(x)));
      TookFirstStep(states, ticks, lo, k, x);
      TookOutPointStep(states, ticks, lo, k, OutPointOf(x));
    }
  }

  lemma TookFirstStep(states: nat -> State, ticks: nat -> Tick, lo: nat, k: nat, x: InputDataSigned)
    requires lo <= k
    ensures TookFirst(states, ticks, lo, k + 1, x) <==>
              || TookFirst(states, ticks, lo, k, x)
              || (TakesInput(states(k), ticks(k), x) && !TookOutPoint(states, ticks, lo, k, OutPointOf(x)))
  {}

  lemma TookOutPointStep(states: nat -> State, ticks: nat -> Tick, lo: nat, k: nat, o: OutPoint)
    requires lo <= k
    ensures TookOutPoint(states, ticks, lo, k + 1, o) <==>
              TookOutPoint(states, ticks, lo, k, o) || TakesOutPoint(states(k), ticks(k), o)
  {
    if x :| TakesInput(states(k), ticks(k), x) && OutPointOf(x) == o {
      assert lo <= k < k + 1;
    }
  }

  // ---------------------------------------------------------------- the laws of a run

  lemma BeginHoldsNothing(n: Inner, pool: Option<Pool>, id: string, t: Tick)
    requires Fresh(n)
    ensures var s := Begin(n, pool, id, t);
            && s.inner.peers == [] && OutputsOf(s) == [] && InputsOf(s) == []
            && (Current(s).Some? ==> !PastOwnOutput(s))
  {}

  /** At any time of any run: the peers recorded are those whose requests the peer round took; the builder
      pays exactly the valid addresses that the output round took, and from then on the own one; and it
      holds exactly the inputs that the input round took, the first for each outpoint. */
  lemma RunCollects(
    signer: Option<Wallet>, n: Inner, pool: Option<Pool>, id: string, t: Tick, ticks: nat -> Tick, lo: nat, hi: nat)
    requires Fresh(n) && lo <= hi
    ensures var states := StatesOf(signer, Begin(n, pool, id, t), ticks, lo);
            var s := states(hi);
            && (!s.pc.Failed? ==> forall p :: p in s.inner.peers <==> TookPeer(states, ticks, lo, hi, p))
            && (Current(s).Some? ==>
                  && (forall a :: a in OutputsOf(s) <==>
                        TookOutput(states, ticks, lo, hi, a) || (PastOwnOutput(s) && s.inner.output == Some(a)))
                  && (forall x :: x in InputsOf(s) <==> TookFirst(states, ticks, lo, hi, x)))
  {
    var start := Begin(n, pool, id, t);
    var states := StatesOf(signer, start, ticks, lo);
    BeginSound(n, pool, id, t);
    BeginHoldsNothing(n, pool, id, t);
    RunIsTrace(signer, start, ticks, lo);
    TraceCollects(signer, states, ticks, lo, hi);
  }

  lemma TraceCollects(signer: Option<Wallet>, states: nat -> State, ticks: nat -> Tick, lo: nat, hi: nat)
    requires lo <= hi && Trace(signer, states, ticks, lo)
    requires states(lo).inner.peers == [] && OutputsOf(states(lo)) == [] && InputsOf(states(lo)) == []
    requires Current(states(lo)).Some? ==> !PastOwnOutput(states(lo))
    ensures var s := states(hi);
            && (!s.pc.Failed? ==> forall p :: p in s.inner.peers <==> TookPeer(states, ticks, lo, hi, p))
            && (Current(s).Some? ==>
                  && (forall a :: a in OutputsOf(s) <==>
                        TookOutput(states, ticks, lo, hi, a) || (PastOwnOutput(s) && s.inner.output == Some(a)))
                  && (forall x :: x in InputsOf(s) <==> TookFirst(states, ticks, lo, hi, x)))
  {
    forall p
      ensures states(hi).pc.Failed? || (p in states(hi).inner.peers <==> TookPeer(states, ticks, lo, hi, p))
    {
      PeersCollected(signer, states, ticks, lo, hi, p);
    }
    if Current(states(hi)).Some? {
      forall a
        ensures a in OutputsOf(states(hi)) <==>
                  || TookOutput(states, ticks, lo, hi, a)
                  || (PastOwnOutput(states(hi)) && states(hi).inner.output == Some(a))
      {
        OutputsCollected(signer, states, ticks, lo, hi, a);
      }
      forall x
        ensures x in InputsOf(states(hi)) <==> TookFirst(states, ticks, lo, hi, x)
      {
        InputsCollected(signer, states, ticks, lo, hi, x);
      }
    }
  }

  /** Output registration succeeds exactly if its checks come in time, the peers whose requests were taken
      are enough, and the different valid addresses taken, with the own one, are as many as they are. */
  lemma RegistrationSucceedsIff(
    signer: Option<Wallet>, n: Inner, pool: Option<Pool>, id: string, t: Tick, ticks: nat -> Tick, lo: nat, k: nat,
    peers: set<Npub>, addresses: set<Address>)
    requires Fresh(n) && lo <= k
    requires var states := StatesOf(signer, Begin(n, pool, id, t), ticks, lo);
             && states(k).pc.OutputCheck?
             && (forall p :: p in peers <==> TookPeer(states, ticks, lo, k, p))
             && (forall a :: a in addresses <==>
                 TookOutput(states, ticks, lo, k, a) || states(k).inner.output == Some(a))
    ensures var states := StatesOf(signer, Begin(n, pool, id, t), ticks, lo);
            && HasPayload(states(k).inner)
            && (states(k + 1).pc.SignRound? <==>
                  && ticks(k).now <= states(k).pc.until
                  && |addresses| == |peers| >= Payload(states(k).inner).peers)
  {
    var states := StatesOf(signer, Begin(n, pool, id, t), ticks, lo);
    var s := states(k);
    RunCollects(signer, n, pool, id, t, ticks, lo, k);
    BeginSound(n, pool, id, t);
    RunIsTrace(signer, Begin(n, pool, id, t), ticks, lo);
    assert TraceAt(signer, states, ticks, k);
    assert Elements(s.inner.peers) == peers && Elements(s.pc.cj.outputs) == addresses;
    CheckCounts(signer, s, ticks(k));
  }

  lemma CheckCounts(signer: Option<Wallet>, s: State, t: Tick)
    requires Sound(s) && s.pc.OutputCheck?
    ensures HasPayload(s.inner)
    ensures Step(signer, s, t).pc.SignRound? <==>
              && t.now <= s.pc.until
              && |Elements(s.pc.cj.outputs)| == |Elements(s.inner.peers)| >= Payload(s.inner).peers
  {
    DistinctCardinality(s.pc.cj.outputs);
    OutputCheckOutcome(s.inner, s.pc.until, s.pc.seen, s.pc.cj, t);
  }
}
