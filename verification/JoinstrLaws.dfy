/** What every step of one participant keeps, and what follows for a run that succeeds. */
module JoinstrLaws {
  import opened Permutations
  import opened Bitcoin
  import opened Nostr
  import opened CoinJoinSpec
  import opened CoinJoinLaws
  import opened Signer
  import opened JoinstrSpec

  // ---------------------------------------------------------------- the invariant

  /** A participant that has not yet collected anything. */
  ghost predicate Fresh(n: Inner) {
    && n.coinjoin.None? && n.finalTx.None? && n.peers == [] && n.outputs == [] && n.inputs == [] && n.outbox == []
  }

  ghost predicate Parameters(b: Builder, n: Inner) {
    && HasPayload(n) && Payload(n).fee.FixedFee?
    && b.minPeer == Payload(n).peers && b.denomination == Payload(n).denomination && b.fee == Payload(n).fee.rate
  }

  ghost predicate OnlyOutputs(b: Builder) {
    Distinct(b.outputs) && b.psbt.None? && b.inputs == [] && b.tx.None?
  }

  ghost predicate Untouched(n: Inner) {
    n.coinjoin.None? && n.finalTx.None? && n.inputs == []
  }

  /** The peers listed are the peers seen, each once; rounds that may start early stop at the
      wanted number. */
  ghost predicate PeersListed(n: Inner, seen: set<Npub>) {
    && HasPayload(n) && Distinct(n.peers) && Elements(n.peers) == seen
    && (StartTimeline(Payload(n)).early ==> |seen| <= Payload(n).peers)
  }

  ghost predicate EnoughPeers(b: Builder, n: Inner) {
    && HasPayload(n) && |b.outputs| == |n.peers| && |n.peers| >= Payload(n).peers
    && (StartTimeline(Payload(n)).early ==> |n.peers| == Payload(n).peers)
  }

  ghost predicate OwnOutputIn(b: Builder, n: Inner) {
    n.output.Some? ==> n.output.value in b.outputs
  }

  /** The template pays everyone in `outputs`, and the output list no longer grows. */
  ghost predicate Templated(b: Builder, n: Inner) {
    && Parameters(b, n) && EnoughPeers(b, n) && OwnOutputIn(b, n)
    && Distinct(b.outputs) && DistinctOutPoints(b.inputs)
    && b.psbt == Some(UnsignedTx(b.outputs, b.denomination))
  }

  /** The final transaction spends every registered input, at least one per output, and pays its fee. */
  ghost predicate Complete(b: Builder) {
    && b.psbt.Some? && b.tx == Some(Assemble(b.psbt.value, b.inputs))
    && |b.inputs| >= |b.outputs|
    && StrictlyIncreasing(b.tx.value.input)
    && Funded(b.tx.value, b.inputs, b.fee)
  }

  ghost predicate DeadlineIs(n: Inner, until: u64) {
    && HasPayload(n) && EndTimeline(Payload(n)).Some?
    && (!Payload(n).timeout.Timeout? ==> EndTimeline(Payload(n)) == Some(until))
  }

  ghost predicate AtPeers(n: Inner, seen: set<Npub>, cj: Builder) {
    Untouched(n) && PeersListed(n, seen) && Parameters(cj, n) && OnlyOutputs(cj)
  }

  ghost predicate AtOutputs(n: Inner, until: u64, seen: set<Npub>, cj: Builder) {
    AtPeers(n, seen, cj) && OwnOutputIn(cj, n) && EndTimeline(Payload(n)) == Some(until)
  }

  ghost predicate AtSign(n: Inner) {
    && n.coinjoin.Some? && n.finalTx.None?
    && var b := n.coinjoin.value;
    && OnlyOutputs(b) && Parameters(b, n) && EnoughPeers(b, n) && OwnOutputIn(b, n)
    && EndTimeline(Payload(n)).Some?
  }

  ghost predicate AtInputs(n: Inner) {
    && n.coinjoin.Some? && n.finalTx.None? && Templated(n.coinjoin.value, n) && n.coinjoin.value.tx.None?
    && EndTimeline(Payload(n)).Some?
  }

  ghost predicate AtEnd(n: Inner) {
    n.coinjoin.Some? && Templated(n.coinjoin.value, n) && (n.coinjoin.value.tx.Some? ==> Complete(n.coinjoin.value))
  }

  ghost predicate PcOk(s: State) {
    var n := s.inner;
    match s.pc
    case Joining(_) => HasPayload(n) && Untouched(n) && n.peers == []
    case DummyJoin(until, early, cj) => AtPeers(n, {}, cj) && Window(until, early) == StartTimeline(Payload(n))
    case PeerRound(until, early, seen, cj) => AtPeers(n, seen, cj) && Window(until, early) == StartTimeline(Payload(n))
    case OwnOutput(seen, cj) => AtPeers(n, seen, cj)
    case OutputRound(until, seen, cj) => AtOutputs(n, until, seen, cj)
    case OutputCheck(until, seen, cj) => AtOutputs(n, until, seen, cj)
    case SignRound => AtSign(n)
    case InputDeadline => AtInputs(n)
    case InputStart(until) => AtInputs(n) && DeadlineIs(n, until)
    case InputRound(until) => AtInputs(n) && DeadlineIs(n, until)
    case InputCheck(until) => AtEnd(n) && DeadlineIs(n, until)
    case Broadcasting => AtEnd(n)
    case Finished => AtEnd(n) && n.finalTx.Some? && n.finalTx == n.coinjoin.value.tx
    case Failed(_) => true
    case Aborted(_) => true
  }

  /** Once frozen, the template covers the full output set; this outlives a failed run. */
  ghost predicate FrozenOk(n: Inner) {
    n.coinjoin.Some? && n.coinjoin.value.psbt.Some? ==> Templated(n.coinjoin.value, n)
  }

  ghost predicate Sound(s: State) {
    PcOk(s) && FrozenOk(s.inner)
  }

  // ---------------------------------------------------------------- each step keeps it

  lemma BeginSound(n: Inner, pool: Option<Pool>, id: string, t: Tick)
    requires Fresh(n)
    ensures Sound(Begin(n, pool, id, t))
  {
    if IsReady(n) {
      EnterOutputsSound(n.(pool := Some(NewPool(n, id)), phase := OutputRegistration));
    }
  }

  lemma EnterOutputsSound(n: Inner)
    requires HasPayload(n) && Untouched(n) && n.peers == []
    ensures Sound(EnterOutputs(n))
  {}

  lemma JoiningSound(n: Inner, until: u64, t: Tick)
    requires HasPayload(n) && Untouched(n) && n.peers == []
    ensures Sound(StepJoining(n, until, t))
  {
    if t.now < until && !t.recv.BadEvent? {
      match Received(t)
      case Some(CredentialsMessage(cred)) =>
        EnterOutputsSound(n.(key := cred.key, phase := OutputRegistration));
      case _ =>
    }
  }

  lemma PeerRoundSound(n: Inner, until: u64, early: bool, seen: set<Npub>, cj: Builder, t: Tick)
    requires AtPeers(n, seen, cj) && Window(until, early) == StartTimeline(Payload(n))
    ensures Sound(StepPeerRound(n, until, early, seen, cj, t))
  {
    var r := StepPeerRound(n, until, early, seen, cj, t);
    PeerRoundOutcomes(n, until, early, seen, cj, t);
    if r.pc.PeerRound? && r.inner.peers != n.peers {
      var npub :| npub !in seen && r.inner.peers == n.peers + [npub] && r.pc.seen == seen + {npub};
      PeersListedGrows(n, seen, npub);
      AtPeersFrame(n.(peers := r.inner.peers), r.pc.seen, cj, r.inner);
    }
  }

  lemma PeerRoundOutcomes(n: Inner, until: u64, early: bool, seen: set<Npub>, cj: Builder, t: Tick)
    requires HasPayload(n)
    ensures var r := StepPeerRound(n, until, early, seen, cj, t);
            || r == State(n, OwnOutput(seen, cj))
            || r == State(n, PeerRound(until, early, seen, cj))
            || (r.inner == n && (r.pc.Failed? || r.pc.Aborted?))
            || (&& r.pc == PeerRound(until, early, r.pc.seen, cj) && (early ==> |seen| < Payload(n).peers)
                && r.inner == n.(peers := r.inner.peers, outbox := r.inner.outbox)
                && exists npub :: npub !in seen && r.inner.peers == n.peers + [npub] && r.pc.seen == seen + {npub})
  {}

  lemma AtPeersFrame(n: Inner, seen: set<Npub>, cj: Builder, n': Inner)
    requires AtPeers(n, seen, cj) && n' == n.(outbox := n'.outbox)
    ensures AtPeers(n', seen, cj)
  {}

  lemma PeersListedGrows(n: Inner, seen: set<Npub>, npub: Npub)
    requires PeersListed(n, seen) && npub !in seen
    requires StartTimeline(Payload(n)).early ==> |seen| < Payload(n).peers
    ensures PeersListed(n.(peers := n.peers + [npub]), seen + {npub})
  {
    assert Elements(n.peers + [npub]) == Elements(n.peers) + {npub};
    assert npub !in n.peers;
    assert |seen + {npub}| == |seen| + 1;
  }

  lemma OwnOutputSound(n: Inner, seen: set<Npub>, cj: Builder, t: Tick)
    requires AtPeers(n, seen, cj)
    ensures Sound(StepOwnOutput(n, seen, cj, t))
  {
    if n.output.Some? {
      AddOutputKeepsDistinct(cj, n.output.value);
    }
  }

  lemma OutputRoundSound(n: Inner, until: u64, seen: set<Npub>, cj: Builder, t: Tick)
    requires AtOutputs(n, until, seen, cj)
    ensures Sound(StepOutputRound(n, until, seen, cj, t))
  {
    match Received(t)
    case Some(Output(a)) => AddOutputKeepsDistinct(cj, a);
    case _ =>
  }

  lemma OutputCheckSound(n: Inner, until: u64, seen: set<Npub>, cj: Builder, t: Tick)
    requires AtOutputs(n, until, seen, cj)
    ensures Sound(StepOutputCheck(n, until, seen, cj, t))
  {
    DistinctCardinality(n.peers);
  }

  /** Registration hands over a builder whose template cannot fail. */
  lemma TemplateCannotFail(n: Inner)
    requires AtSign(n)
    ensures var (b, r) := GeneratePsbt(n.coinjoin.value);
            r == Ok(()) && Templated(b, n) && b == n.coinjoin.value.(psbt := b.psbt)
  {
    DistinctCardinality(n.coinjoin.value.outputs);
  }

  lemma SignRoundSound(n: Inner, signer: Option<Wallet>, t: Tick)
    requires AtSign(n)
    ensures Sound(StepSignRound(n, signer, t))
    ensures !StepSignRound(n, signer, t).pc.Failed? || !StepSignRound(n, signer, t).pc.error.CoinjoinError?
  {
    TemplateCannotFail(n);
    var b := GeneratePsbt(n.coinjoin.value).0;
    var n1 := n.(coinjoin := Some(b));
    assert AtInputs(n1);
    if n1.input.Some? && signer.Some? {
      SendOwnInputSound(n1, signer.value, t);
    }
  }

  lemma SendOwnInputSound(n: Inner, w: Wallet, t: Tick)
    requires AtInputs(n) && n.input.Some?
    ensures Sound(SendOwnInput(n, w, t))
    ensures !SendOwnInput(n, w, t).pc.Failed? || !SendOwnInput(n, w, t).pc.error.CoinjoinError?
  {
    SendOwnInputShape(n, w, t);
    AtInputsFrame(n, SendOwnInput(n, w, t).inner);
  }

  lemma SendOwnInputShape(n: Inner, w: Wallet, t: Tick)
    requires n.coinjoin.Some? && n.input.Some?
    ensures var s := SendOwnInput(n, w, t);
            && (s.inner == n || s.inner == n.(input := None, inputs := s.inner.inputs, outbox := s.inner.outbox))
            && (s.pc.InputDeadline? || s.pc.Aborted? || (s.pc.Failed? && !s.pc.error.CoinjoinError?))
  {}

  lemma AtInputsFrame(n: Inner, n': Inner)
    requires AtInputs(n)
    requires n'.pool == n.pool && n'.coinjoin == n.coinjoin && n'.finalTx == n.finalTx && n'.peers == n.peers
              && n'.output == n.output
    ensures AtInputs(n')
  {}

  /** The unchecked addition of the deadline cannot overflow for a fixed timeline; except for a
      duration counted from the present, the deadline is the one the output round ended at, and never
      before the start. */
  lemma InputDeadlineSound(n: Inner, t: Tick)
    requires AtInputs(n)
    ensures Sound(StepInputDeadline(n, t))
    ensures StepInputDeadline(n, t).pc.Aborted? <==>
              Payload(n).timeout.Timeout? && t.now + Payload(n).timeout.maxDuration >= U64_LIMIT
    ensures !Payload(n).timeout.Timeout? ==>
              && StepInputDeadline(n, t) == State(n, InputStart(EndTimeline(Payload(n)).value))
              && StartTimeline(Payload(n)).until <= EndTimeline(Payload(n)).value
  {}

  lemma TryRegisterAtInputs(n: Inner, i: InputDataSigned)
    requires AtInputs(n)
    ensures AtInputs(TryRegister(n, i))
    ensures TryRegister(n, i) == n.(coinjoin := TryRegister(n, i).coinjoin, inputs := TryRegister(n, i).inputs)
  {
    var b := n.coinjoin.value;
    if AddInput(b, i).1.Ok? {
      forall k | 0 <= k < |b.inputs|
        ensures OutPointOf(b.inputs[k]) != OutPointOf(i)
      {
        assert OutPoints(b.inputs)[k] in OutPoints(b.inputs);
      }
    }
  }

  /** A refused finalization leaves a builder that can go on; an accepted one is complete. */
  lemma FinalizeTemplated(b: Builder, n: Inner)
    requires Templated(b, n) && b.tx.None?
    ensures var (b', r) := FinalizeClaimed(b);
            && Templated(b', n) && |b'.inputs| == |b.inputs| && multiset(b'.inputs) == multiset(b.inputs)
            && (r.Ok? <==> b'.tx.Some?)
            && (r.Ok? && |b.inputs| >= |b.outputs| ==> Complete(b'))
  {
    var b' := FinalizeClaimed(b).0;
    FinalizeChanges(b, Claimed(b.inputs), AmountMissing);
    FinalizeStores(b, Claimed(b.inputs), AmountMissing);
    SortedInputs(b.inputs);
    FinalizeSucceedsIff(b);
  }

  lemma TryFinalizeSound(n: Inner, until: u64)
    requires AtInputs(n) && DeadlineIs(n, until)
    ensures Sound(TryFinalize(n, until))
  {
    var b' := FinalizeClaimed(n.coinjoin.value).0;
    var n' := n.(coinjoin := Some(b'));
    FinalizeTemplated(n.coinjoin.value, n);
    assert Templated(b', n');
  }

  lemma InputRoundOutcomes(n: Inner, until: u64, t: Tick)
    requires n.coinjoin.Some?
    ensures var r := StepInputRound(n, until, t);
            || r == State(n, InputCheck(until)) || r == State(n, InputRound(until))
            || (r.inner == n && r.pc.Failed?)
            || (exists i :: r == RegisterAndFinalize(n, until, i))
  {}

  lemma InputRoundSound(n: Inner, until: u64, t: Tick)
    requires AtInputs(n) && DeadlineIs(n, until)
    ensures Sound(StepInputRound(n, until, t))
  {
    var r := StepInputRound(n, until, t);
    InputRoundOutcomes(n, until, t);
    if r != State(n, InputCheck(until)) && r != State(n, InputRound(until)) && !(r.inner == n && r.pc.Failed?) {
      var i :| r == RegisterAndFinalize(n, until, i);
      RegisterAndFinalizeSound(n, until, i);
    }
  }

  lemma RegisterAndFinalizeSound(n: Inner, until: u64, i: InputDataSigned)
    requires AtInputs(n) && DeadlineIs(n, until)
    ensures Sound(RegisterAndFinalize(n, until, i))
  {
    TryRegisterAtInputs(n, i);
    TryFinalizeSound(TryRegister(n, i), until);
  }

  lemma DummyJoinSound(n: Inner, until: u64, early: bool, cj: Builder, t: Tick)
    requires AtPeers(n, {}, cj) && Window(until, early) == StartTimeline(Payload(n))
    ensures Sound(StepDummyJoin(n, until, early, cj, t))
  {}

  lemma InputStartSound(n: Inner, until: u64, t: Tick)
    requires AtInputs(n) && DeadlineIs(n, until)
    ensures Sound(StepInputStart(n, until, t))
  {}

  lemma InputCheckSound(n: Inner, until: u64, t: Tick)
    requires AtEnd(n)
    ensures Sound(StepInputCheck(n, until, t))
  {}

  lemma BroadcastingSound(n: Inner, t: Tick)
    requires AtEnd(n)
    ensures Sound(StepBroadcasting(n, t))
  {}

  /** `inv` holds after the step, said of the one action the program counter selects. */
  ghost predicate AfterAction(inv: State -> bool, signer: Option<Wallet>, s: State, t: Tick) {
    var n := s.inner;
    match s.pc
    case Joining(until) => inv(if HasPayload(n) then StepJoining(n, until, t) else Fail(n, PoolNotExists))
    case DummyJoin(until, early, cj) =>
      inv(if HasPayload(n) then StepDummyJoin(n, until, early, cj, t) else Fail(n, PoolNotExists))
    case PeerRound(until, early, seen, cj) =>
      inv(if HasPayload(n) then StepPeerRound(n, until, early, seen, cj, t) else Fail(n, PoolNotExists))
    case OwnOutput(seen, cj) => inv(if HasPayload(n) then StepOwnOutput(n, seen, cj, t) else Fail(n, PoolNotExists))
    case OutputRound(until, seen, cj) =>
      inv(if HasPayload(n) then StepOutputRound(n, until, seen, cj, t) else Fail(n, PoolNotExists))
    case OutputCheck(until, seen, cj) =>
      inv(if HasPayload(n) then StepOutputCheck(n, until, seen, cj, t) else Fail(n, PoolNotExists))
    case SignRound => inv(StepSignRound(n, signer, t))
    case InputDeadline => inv(StepInputDeadline(n, t))
    case InputStart(until) => inv(StepInputStart(n, until, t))
    case InputRound(until) => inv(StepInputRound(n, until, t))
    case InputCheck(until) => inv(StepInputCheck(n, until, t))
    case Broadcasting => inv(StepBroadcasting(n, t))
    case _ => inv(s)
  }

  lemma StepByAction(inv: State -> bool, signer: Option<Wallet>, s: State, t: Tick)
    requires AfterAction(inv, signer, s, t)
    ensures inv(Step(signer, s, t))
  {}

  /** What every step keeps holds after any number of steps. */
  lemma {:induction false} RunInduction(
    inv: State -> bool, step: (State, Tick) -> State, s: State, ticks: nat -> Tick, lo: nat, hi: nat)
    requires lo <= hi && inv(s)
    requires forall s': State, k: nat :: inv(s') && lo <= k < hi ==> inv(step(s', ticks(k)))
    ensures inv(Run(step, s, ticks, lo, hi))
    decreases hi
  {
    if lo < hi {
      RunInduction(inv, step, s, ticks, lo, hi - 1);
    }
  }

  /** Every step keeps the invariant. */
  lemma StepSound(signer: Option<Wallet>, s: State, t: Tick)
    requires Sound(s)
    ensures Sound(Step(signer, s, t))
  {
    var inv := (x: State) => Sound(x);
    var n := s.inner;
    match s.pc {
      case Joining(until) => JoiningSound(n, until, t);
      case DummyJoin(until, early, cj) => DummyJoinSound(n, until, early, cj, t);
      case PeerRound(until, early, seen, cj) => PeerRoundSound(n, until, early, seen, cj, t);
      case OwnOutput(seen, cj) => OwnOutputSound(n, seen, cj, t);
      case OutputRound(until, seen, cj) => OutputRoundSound(n, until, seen, cj, t);
      case OutputCheck(until, seen, cj) => OutputCheckSound(n, until, seen, cj, t);
      case SignRound => SignRoundSound(n, signer, t);
      case InputDeadline => InputDeadlineSound(n, t);
      case InputStart(until) => InputStartSound(n, until, t);
      case InputRound(until) => InputRoundSound(n, until, t);
      case InputCheck(until) => InputCheckSound(n, until, t);
      case Broadcasting => BroadcastingSound(n, t);
      case _ =>
    }
    StepByAction(inv, signer, s, t);
  }

  /** The invariant holds all along every run. */
  lemma RunSound(signer: Option<Wallet>, s: State, ticks: nat -> Tick, lo: nat, hi: nat)
    requires lo <= hi && Sound(s)
    ensures Sound(Run(Stepper(signer), s, ticks, lo, hi))
  {
    var inv := (x: State) => Sound(x);
    forall s': State, k: nat | inv(s')
      ensures inv(Stepper(signer)(s', ticks(k)))
    {
      StepSound(signer, s', ticks(k));
    }
    RunInduction(inv, Stepper(signer), s, ticks, lo, hi);
  }

  // ---------------------------------------------------------------- where things come from

  function AddressesIn(ms: set<PoolMessage>): set<Address> {
    set m | m in ms && m.Output? :: m.address
  }

  /** The input a message offers, sent as such or as a one-input PSBT. */
  function Offer(m: PoolMessage): Option<InputDataSigned> {
    match m
    case Input(i) => Some(i)
    case PsbtMessage(p) => if FromPsbt(p).PsbtOk? then Some(FromPsbt(p).input) else None
    case _ => None
  }

  function InputsIn(ms: set<PoolMessage>): set<InputDataSigned> {
    set m | m in ms && Offer(m).Some? :: Offer(m).value
  }

  /** Messages can deliver an ambiguous list of inputs: two claims of 2^63 satoshis each, and a PSBT,
      which never carries an amount. */
  lemma AmbiguousInputsArrive(script: Script) returns (messages: seq<PoolMessage>, inputs: seq<InputDataSigned>)
    ensures |messages| == |inputs| && forall i :: 0 <= i < |inputs| ==> Offer(messages[i]) == Some(inputs[i])
    ensures DistinctOutPoints(inputs) && Ambiguous(inputs)
  {
    var half: Amount := U64_LIMIT / 2;
    var txin := (n: nat) => TxIn(OutPoint(n, 0), [], 0, [script]);
    var claim := (n: nat) => InputDataSigned(txin(n), Some(half));
    var psbt := Psbt(Transaction(2, 0, [txin(2)], []), [PsbtInput(None)]);
    messages := [Input(claim(0)), Input(claim(1)), PsbtMessage(psbt)];
    inputs := [claim(0), claim(1), InputDataSigned(txin(2), None)];
    var amounts := Claimed(inputs);
    assert amounts[2].None?;
    SumOfOne(AmountOrZero, amounts[0]);
    SumOfOne(AmountOrZero, amounts[1]);
    SumOfOne(AmountOrZero, amounts[2]);
    SumAppend(AmountOrZero, [amounts[0]], [amounts[1]]);
    SumAppend(AmountOrZero, [amounts[0]] + [amounts[1]], [amounts[2]]);
    assert amounts == [amounts[0]] + [amounts[1]] + [amounts[2]];
  }

  /** The builder the participant is filling. */
  function Current(s: State): Option<Builder> {
    match s.pc
    case DummyJoin(_, _, cj) => Some(cj)
    case PeerRound(_, _, _, cj) => Some(cj)
    case OwnOutput(_, cj) => Some(cj)
    case OutputRound(_, _, cj) => Some(cj)
    case OutputCheck(_, _, cj) => Some(cj)
    case _ => s.inner.coinjoin
  }

  ghost predicate OutputsSourced(b: Builder, n: Inner, ms: set<PoolMessage>) {
    forall a :: a in b.outputs ==> a in AddressesIn(ms) || (n.output == Some(a) && Output(a) in n.outbox)
  }

  ghost predicate InputsSourced(b: Builder, ms: set<PoolMessage>) {
    forall i :: i in b.inputs ==> i in InputsIn(ms)
  }

  /** Every output was received or is the participant's own and was sent; every input was received. */
  ghost predicate Sourced(s: State, ms: set<PoolMessage>) {
    Current(s).Some? ==> OutputsSourced(Current(s).value, s.inner, ms) && InputsSourced(Current(s).value, ms)
  }

  lemma SourcedMonotone(s: State, ms: set<PoolMessage>, more: set<PoolMessage>)
    requires Sourced(s, ms) && ms <= more
    ensures Sourced(s, more)
  {}

  ghost predicate Heard(t: Tick, ms: set<PoolMessage>) {
    t.recv.Message? ==> t.recv.message in ms
  }

  lemma BeginSourced(n: Inner, pool: Option<Pool>, id: string, t: Tick, ms: set<PoolMessage>)
    requires Fresh(n)
    ensures Sourced(Begin(n, pool, id, t), ms)
  {}

  lemma TryRegisterSourced(n: Inner, i: InputDataSigned, ms: set<PoolMessage>)
    requires n.coinjoin.Some? && InputsSourced(n.coinjoin.value, ms) && i in InputsIn(ms)
    ensures InputsSourced(TryRegister(n, i).coinjoin.value, ms)
    ensures TryRegister(n, i).coinjoin.value.outputs == n.coinjoin.value.outputs
  {}

  lemma FinalizeKeepsInputs(b: Builder)
    ensures Elements(FinalizeClaimed(b).0.inputs) == Elements(b.inputs)
    ensures FinalizeClaimed(b).0.outputs == b.outputs
  {
    FinalizeChanges(b, Claimed(b.inputs), AmountMissing);
    SortPermutation(InputLe, b.inputs);
    var sorted := SortInputs(b.inputs);
    forall i ensures i in sorted <==> i in b.inputs {
      assert i in multiset(sorted) <==> i in multiset(b.inputs);
    }
  }

  lemma TryFinalizeSourced(n: Inner, until: u64, ms: set<PoolMessage>)
    requires n.coinjoin.Some? && InputsSourced(n.coinjoin.value, ms) && OutputsSourced(n.coinjoin.value, n, ms)
    ensures Sourced(TryFinalize(n, until), ms)
  {
    var b := n.coinjoin.value;
    FinalizeKeepsInputs(b);
    SameInputsSourced(b, FinalizeClaimed(b).0, ms);
  }

  lemma SameInputsSourced(b: Builder, b': Builder, ms: set<PoolMessage>)
    requires InputsSourced(b, ms) && Elements(b'.inputs) == Elements(b.inputs)
    ensures InputsSourced(b', ms)
  {
    forall i | i in b'.inputs ensures i in InputsIn(ms) {
      assert i in Elements(b.inputs);
    }
  }

  lemma RegisterAndFinalizeSourced(n: Inner, until: u64, i: InputDataSigned, ms: set<PoolMessage>)
    requires n.coinjoin.Some? && InputsSourced(n.coinjoin.value, ms) && OutputsSourced(n.coinjoin.value, n, ms)
    requires i in InputsIn(ms)
    ensures Sourced(RegisterAndFinalize(n, until, i), ms)
  {
    TryRegisterSourced(n, i, ms);
    TryFinalizeSourced(TryRegister(n, i), until, ms);
  }

  lemma InputRoundSourced(n: Inner, until: u64, t: Tick, ms: set<PoolMessage>)
    requires Sourced(State(n, InputRound(until)), ms) && Heard(t, ms)
    ensures Sourced(StepInputRound(n, until, t), ms)
  {
    if n.coinjoin.Some? {
      match Received(t)
      case Some(PsbtMessage(p)) =>
        if FromPsbt(p).PsbtOk? {
          assert Offer(PsbtMessage(p)) == Some(FromPsbt(p).input);
          RegisterAndFinalizeSourced(n, until, FromPsbt(p).input, ms);
        }
      case Some(Input(i)) =>
        assert Offer(Input(i)) == Some(i);
        RegisterAndFinalizeSourced(n, until, i, ms);
      case _ =>
    }
  }

  lemma SignRoundSourced(n: Inner, signer: Option<Wallet>, t: Tick, ms: set<PoolMessage>)
    requires Sourced(State(n, SignRound), ms)
    ensures Sourced(StepSignRound(n, signer, t), ms)
  {
    if n.coinjoin.Some? {
      var s := StepSignRound(n, signer, t);
      SignRoundKeepsBuilder(n, signer, t);
      SameSources(n.coinjoin.value, n, s.inner.coinjoin.value, s.inner, ms);
    }
  }

  lemma SignRoundKeepsBuilder(n: Inner, signer: Option<Wallet>, t: Tick)
    requires n.coinjoin.Some?
    ensures var s := StepSignRound(n, signer, t);
            && Current(s) == s.inner.coinjoin && s.inner.coinjoin.Some?
            && s.inner.coinjoin.value.outputs == n.coinjoin.value.outputs
            && s.inner.coinjoin.value.inputs == n.coinjoin.value.inputs
            && s.inner.output == n.output && n.outbox <= s.inner.outbox
  {
    var b := GeneratePsbt(n.coinjoin.value).0;
    GeneratePsbtKeeps(n.coinjoin.value);
    var n1 := n.(coinjoin := Some(b));
    if n1.input.Some? && signer.Some? {
      SendOwnInputShape(n1, signer.value, t);
      SendOwnInputGrowsOutbox(n1, signer.value, t);
    }
  }

  lemma SameSources(b: Builder, n: Inner, b': Builder, n': Inner, ms: set<PoolMessage>)
    requires OutputsSourced(b, n, ms) && InputsSourced(b, ms)
    requires b'.outputs == b.outputs && b'.inputs == b.inputs && n'.output == n.output && n.outbox <= n'.outbox
    ensures OutputsSourced(b', n', ms) && InputsSourced(b', ms)
  {}

  lemma GeneratePsbtKeeps(b: Builder)
    ensures GeneratePsbt(b).0.outputs == b.outputs && GeneratePsbt(b).0.inputs == b.inputs
  {}

  lemma SendOwnInputGrowsOutbox(n: Inner, w: Wallet, t: Tick)
    requires n.coinjoin.Some? && n.input.Some?
    ensures n.outbox <= SendOwnInput(n, w, t).inner.outbox
  {}

  lemma OutputRoundSourced(n: Inner, until: u64, seen: set<Npub>, cj: Builder, t: Tick, ms: set<PoolMessage>)
    requires HasPayload(n) && Sourced(State(n, OutputRound(until, seen, cj)), ms) && Heard(t, ms)
    requires n.coinjoin.None?
    ensures Sourced(StepOutputRound(n, until, seen, cj, t), ms)
  {
    match Received(t)
    case Some(Output(a)) => assert a in AddressesIn(ms);
    case _ =>
  }

  lemma GatheringSourced(s: State, t: Tick, ms: set<PoolMessage>)
    requires Sound(s) && (s.pc.Joining? || s.pc.DummyJoin? || s.pc.PeerRound?)
    requires Sourced(s, ms)
    ensures Sourced(StepGathering(s, t), ms)
  {}

  lemma OutputsStepSourced(s: State, t: Tick, ms: set<PoolMessage>)
    requires Sound(s) && (s.pc.OwnOutput? || s.pc.OutputRound? || s.pc.OutputCheck?)
    requires Sourced(s, ms) && Heard(t, ms)
    ensures Sourced(StepOutputs(s, t), ms)
  {
    if s.pc.OutputRound? {
      OutputRoundSourced(s.inner, s.pc.until, s.pc.seen, s.pc.cj, t, ms);
    }
  }

  lemma InputsStepSourced(signer: Option<Wallet>, s: State, t: Tick, ms: set<PoolMessage>)
    requires Sourced(s, ms) && Heard(t, ms)
    ensures Sourced(StepInputs(signer, s, t), ms)
  {
    match s.pc
    case SignRound => SignRoundSourced(s.inner, signer, t, ms);
    case InputRound(until) => InputRoundSourced(s.inner, until, t, ms);
    case _ =>
  }

  /** Every step keeps the sources. */
  lemma StepSourced(signer: Option<Wallet>, s: State, t: Tick, ms: set<PoolMessage>)
    requires Sound(s) && Sourced(s, ms) && Heard(t, ms)
    ensures Sourced(Step(signer, s, t), ms)
  {
    if s.pc.Joining? || s.pc.DummyJoin? || s.pc.PeerRound? {
      GatheringSourced(s, t, ms);
    } else if s.pc.OwnOutput? || s.pc.OutputRound? || s.pc.OutputCheck? {
      OutputsStepSourced(s, t, ms);
    } else {
      InputsStepSourced(signer, s, t, ms);
    }
  }

  function HeardIn(ticks: nat -> Tick, lo: nat, hi: nat): set<PoolMessage> {
    set k: nat | lo <= k < hi && ticks(k).recv.Message? :: ticks(k).recv.message
  }

  /** Along a run everything comes from what was heard. */
  lemma RunSourced(signer: Option<Wallet>, s: State, ticks: nat -> Tick, lo: nat, hi: nat)
    requires lo <= hi && Sound(s) && Sourced(s, {})
    ensures Sound(Run(Stepper(signer), s, ticks, lo, hi))
    ensures Sourced(Run(Stepper(signer), s, ticks, lo, hi), HeardIn(ticks, lo, hi))
  {
    var ms := HeardIn(ticks, lo, hi);
    var inv := (x: State) => Sound(x) && Sourced(x, ms);
    SourcedMonotone(s, {}, ms);
    forall s': State, k: nat | inv(s') && lo <= k < hi
      ensures inv(Stepper(signer)(s', ticks(k)))
    {
      assert Heard(ticks(k), ms);
      StepSound(signer, s', ticks(k));
      StepSourced(signer, s', ticks(k), ms);
    }
    RunInduction(inv, Stepper(signer), s, ticks, lo, hi);
  }

  // ---------------------------------------------------------------- what a run never changes

  function PsbtOf(n: Inner): Option<Transaction> {
    if n.coinjoin.Some? then n.coinjoin.value.psbt else None
  }

  /** The pool, the own address and a frozen template stay; what was sent stays sent. */
  ghost predicate Continues(n: Inner, n': Inner) {
    && n'.pool == n.pool && n'.output == n.output && n.outbox <= n'.outbox
    && (PsbtOf(n).Some? ==> PsbtOf(n') == PsbtOf(n))
  }

  /** No signed input is sent. */
  ghost predicate Quiet(n: Inner, n': Inner) {
    forall x :: Input(x) in n'.outbox ==> Input(x) in n.outbox
  }

  /** Every signed input ever sent was signed by this participant over its frozen template. */
  ghost predicate SignedOwn(signer: Option<Wallet>, n: Inner) {
    forall x :: Input(x) in n.outbox ==>
      signer.Some? && PsbtOf(n).Some? && exists coin :: Sign(signer.value, PsbtOf(n).value, coin) == Signed(x)
  }

  lemma GatheringContinues(s: State, t: Tick)
    requires Sound(s)
    ensures Continues(s.inner, StepGathering(s, t).inner) && Quiet(s.inner, StepGathering(s, t).inner)
  {}

  lemma OutputsContinues(s: State, t: Tick)
    requires Sound(s)
    ensures Continues(s.inner, StepOutputs(s, t).inner) && Quiet(s.inner, StepOutputs(s, t).inner)
  {}

  lemma TryRegisterContinues(n: Inner, i: InputDataSigned)
    requires n.coinjoin.Some?
    ensures Continues(n, TryRegister(n, i)) && TryRegister(n, i).outbox == n.outbox
  {}

  lemma FinalizeKeepsPsbt(b: Builder)
    ensures FinalizeClaimed(b).0.psbt == b.psbt
  {
    FinalizeChanges(b, Claimed(b.inputs), AmountMissing);
  }

  lemma TryFinalizeContinues(n: Inner, until: u64)
    requires n.coinjoin.Some?
    ensures Continues(n, TryFinalize(n, until).inner) && TryFinalize(n, until).inner.outbox == n.outbox
  {
    FinalizeKeepsPsbt(n.coinjoin.value);
  }

  lemma RegisterContinues(n: Inner, until: u64, i: InputDataSigned)
    requires n.coinjoin.Some?
    ensures Continues(n, RegisterAndFinalize(n, until, i).inner)
              && RegisterAndFinalize(n, until, i).inner.outbox == n.outbox
  {
    TryRegisterContinues(n, i);
    TryFinalizeContinues(TryRegister(n, i), until);
  }

  lemma InputRoundContinues(n: Inner, until: u64, t: Tick)
    ensures Continues(n, StepInputRound(n, until, t).inner) && Quiet(n, StepInputRound(n, until, t).inner)
  {
    if n.coinjoin.Some? {
      var r := StepInputRound(n, until, t);
      InputRoundOutcomes(n, until, t);
      if r != State(n, InputCheck(until)) && r != State(n, InputRound(until)) && !(r.inner == n && r.pc.Failed?) {
        var i :| r == RegisterAndFinalize(n, until, i);
        RegisterContinues(n, until, i);
      }
    }
  }

  lemma SendOwnInputSigned(n: Inner, w: Wallet, t: Tick)
    requires n.coinjoin.Some? && n.input.Some? && SignedOwn(Some(w), n)
    ensures Continues(n, SendOwnInput(n, w, t).inner) && SignedOwn(Some(w), SendOwnInput(n, w, t).inner)
  {
    if PsbtOf(n).Some? {
      AfterSigningSigned(n, w, n.input.value, t);
    }
  }

  lemma AfterSigningSigned(n: Inner, w: Wallet, coin: Coin, t: Tick)
    requires PsbtOf(n).Some? && SignedOwn(Some(w), n)
    ensures var n' := AfterSigning(n, Sign(w, PsbtOf(n).value, coin), t).inner;
            Continues(n, n') && SignedOwn(Some(w), n')
  {
    var result := Sign(w, PsbtOf(n).value, coin);
    AfterSigningSends(n, result, t);
    var n' := AfterSigning(n, result, t).inner;
    forall x | Input(x) in n'.outbox
      ensures exists c :: Sign(w, PsbtOf(n').value, c) == Signed(x)
    {
      if Input(x) !in n.outbox {
        assert Sign(w, PsbtOf(n').value, coin) == Signed(x);
      }
    }
  }

  lemma AfterSigningSends(n: Inner, result: SignResult, t: Tick)
    ensures var n' := AfterSigning(n, result, t).inner;
            && Continues(n, n') && PsbtOf(n') == PsbtOf(n)
            && (n'.outbox == n.outbox || (result.Signed? && n'.outbox == n.outbox + [Input(result.input)]))
  {}

  lemma SignRoundSigned(n: Inner, signer: Option<Wallet>, t: Tick)
    requires AtSign(n) && SignedOwn(signer, n)
    ensures Continues(n, StepSignRound(n, signer, t).inner) && SignedOwn(signer, StepSignRound(n, signer, t).inner)
  {
    TemplateCannotFail(n);
    var n1 := n.(coinjoin := Some(GeneratePsbt(n.coinjoin.value).0));
    assert SignedOwn(signer, n1);
    if n1.input.Some? && signer.Some? {
      SendOwnInputSigned(n1, signer.value, t);
    }
  }

  lemma QuietKeepsSigned(signer: Option<Wallet>, n: Inner, n': Inner)
    requires SignedOwn(signer, n) && Continues(n, n') && Quiet(n, n')
    ensures SignedOwn(signer, n')
  {}

  /** The step keeps the participant's template, and what it sends is signed over it. */
  ghost predicate KeepsSigning(signer: Option<Wallet>, n: Inner, n': Inner) {
    Continues(n, n') && SignedOwn(signer, n')
  }

  lemma GatheringSigned(signer: Option<Wallet>, s: State, t: Tick)
    requires Sound(s) && SignedOwn(signer, s.inner)
    ensures KeepsSigning(signer, s.inner, StepGathering(s, t).inner)
  {
    GatheringContinues(s, t);
    QuietKeepsSigned(signer, s.inner, StepGathering(s, t).inner);
  }

  lemma OutputsSigned(signer: Option<Wallet>, s: State, t: Tick)
    requires Sound(s) && SignedOwn(signer, s.inner)
    ensures KeepsSigning(signer, s.inner, StepOutputs(s, t).inner)
  {
    OutputsContinues(s, t);
    QuietKeepsSigned(signer, s.inner, StepOutputs(s, t).inner);
  }

  /** A deadline, a check or the broadcast sends nothing and leaves the builder alone. */
  lemma OtherSteps(n: Inner, until: u64, t: Tick)
    ensures StepInputDeadline(n, t).inner == n
    ensures StepInputStart(n, until, t).inner == n
    ensures StepInputCheck(n, until, t).inner == n
    ensures var n' := StepBroadcasting(n, t).inner; n' == n.(finalTx := n'.finalTx, phase := n'.phase)
  {}

  lemma InputsSigned(signer: Option<Wallet>, s: State, t: Tick)
    requires Sound(s) && SignedOwn(signer, s.inner)
    ensures KeepsSigning(signer, s.inner, StepInputs(signer, s, t).inner)
  {
    if s.pc.SignRound? {
      SignRoundSigned(s.inner, signer, t);
    } else {
      if s.pc.InputRound? {
        InputRoundContinues(s.inner, s.pc.until, t);
      }
      OtherSteps(s.inner, if s.pc.InputStart? || s.pc.InputCheck? then s.pc.until else 0, t);
      QuietKeepsSigned(signer, s.inner, StepInputs(signer, s, t).inner);
    }
  }

  /** Every step continues, and sends a signed input only after signing it over the template. */
  lemma StepSigned(signer: Option<Wallet>, s: State, t: Tick)
    requires Sound(s) && SignedOwn(signer, s.inner)
    ensures Continues(s.inner, Step(signer, s, t).inner) && SignedOwn(signer, Step(signer, s, t).inner)
  {
    if s.pc.Joining? || s.pc.DummyJoin? || s.pc.PeerRound? {
      GatheringSigned(signer, s, t);
    } else if s.pc.OwnOutput? || s.pc.OutputRound? || s.pc.OutputCheck? {
      OutputsSigned(signer, s, t);
    } else {
      InputsSigned(signer, s, t);
    }
    assert KeepsSigning(signer, s.inner, Step(signer, s, t).inner);
  }

  // ---------------------------------------------------------------- completion

  /** Enough inputs are registered, and they fund the transaction. */
  ghost predicate Completable(b: Builder) {
    b.psbt.Some? && |b.inputs| >= |b.outputs| && Funded(Assemble(b.psbt.value, b.inputs), b.inputs, b.fee)
  }

  /** Exactly when an input that arrives ends the input round: whether it was registered or refused,
      the inputs then held are enough and fund the transaction. */
  lemma RoundCompletesIff(n: Inner, until: u64, i: InputDataSigned)
    requires AtInputs(n)
    ensures RegisterAndFinalize(n, until, i).pc == InputCheck(until) <==> Completable(TryRegister(n, i).coinjoin.value)
    ensures Completable(TryRegister(n, i).coinjoin.value) ==>
              var b := RegisterAndFinalize(n, until, i).inner.coinjoin;
              b.Some? && b.value.tx.Some?
                  && multiset(b.value.inputs) == multiset(TryRegister(n, i).coinjoin.value.inputs)
  {
    TryRegisterAtInputs(n, i);
    FinalizeSucceedsIff(TryRegister(n, i).coinjoin.value);
  }

  /** A participant in the input round finishes within three steps of the input that completes it, if
      that comes in time and the broadcast succeeds. */
  lemma CompletingInputFinishes(signer: Option<Wallet>, n: Inner, until: u64, i: InputDataSigned, t1: Tick, t2: Tick,
      t3: Tick)
    requires AtInputs(n) && t1.now < until && t2.now <= until && t3.sendOk
    requires Received(t1) == Some(Input(i)) && Completable(TryRegister(n, i).coinjoin.value)
    ensures var s := Step(signer, Step(signer, Step(signer, State(n, InputRound(until)), t1), t2), t3);
            s.pc.Finished? && s.inner.finalTx.Some?
  {
    RoundCompletesIff(n, until, i);
    InputIsRegistered(signer, n, until, i, t1);
    LastSteps(signer, RegisterAndFinalize(n, until, i).inner, until, t2, t3);
  }

  lemma InputIsRegistered(signer: Option<Wallet>, n: Inner, until: u64, i: InputDataSigned, t: Tick)
    requires AtInputs(n) && t.now < until && Received(t) == Some(Input(i))
    ensures Step(signer, State(n, InputRound(until)), t) == RegisterAndFinalize(n, until, i)
    ensures RegisterAndFinalize(n, until, i).inner.pool == n.pool
  {
    RegisterContinues(n, until, i);
  }

  lemma LastSteps(signer: Option<Wallet>, n: Inner, until: u64, t2: Tick, t3: Tick)
    requires HasPayload(n) && n.coinjoin.Some? && n.coinjoin.value.tx.Some? && t2.now <= until && t3.sendOk
    ensures var s := Step(signer, Step(signer, State(n, InputCheck(until)), t2), t3);
            s.pc.Finished? && s.inner.finalTx == n.coinjoin.value.tx
  {
    assert Step(signer, State(n, InputCheck(until)), t2) == State(n, Broadcasting);
  }

  // ---------------------------------------------------------------- a successful run

  /** One output per recorded peer, at least as many as the pool asked for, each worth the
      denomination, in script order, the own one among them. */
  ghost predicate PaysEveryone(tx: Transaction, n: Inner) {
    && HasPayload(n) && |tx.output| == |n.peers| >= Payload(n).peers
    && (StartTimeline(Payload(n)).early ==> |tx.output| == Payload(n).peers)
    && (forall i :: 0 <= i < |tx.output| ==> tx.output[i].value == Payload(n).denomination)
    && SortedBy(ScriptLe, tx.output)
    && (n.output.Some? ==> TxOut(Payload(n).denomination, n.output.value.script) in tx.output)
  }

  /** At least as many inputs as outputs, all different and in order, all received, paying a fee that
      passed the test. */
  ghost predicate SpendsReceived(tx: Transaction, n: Inner, ms: set<PoolMessage>) {
    && HasPayload(n) && Payload(n).fee.FixedFee?
    && |tx.input| >= |tx.output| && StrictlyIncreasing(tx.input)
    && exists inputs :: && Map(TxinOf, inputs) == tx.input && Elements(inputs) <= InputsIn(ms)
                        && Funded(tx, inputs, Payload(n).fee.rate)
  }

  lemma TemplatePays(b: Builder, n: Inner, tx: Transaction)
    requires Templated(b, n) && tx.output == b.psbt.value.output
    ensures PaysEveryone(tx, n) && |tx.output| == |b.outputs|
  {
    TemplateShape(b.outputs, b.denomination);
    if n.output.Some? {
      EveryAddressPaid(b.outputs, b.denomination, n.output.value);
    }
  }

  lemma CompleteSpends(b: Builder, n: Inner, ms: set<PoolMessage>)
    requires Templated(b, n) && b.tx.Some? && Complete(b) && InputsSourced(b, ms)
    requires |b.tx.value.output| == |b.outputs|
    ensures SpendsReceived(b.tx.value, n, ms)
  {
    assert b.psbt.value.input == [];
    assert b.tx.value.input == Map(TxinOf, b.inputs);
    assert Elements(b.inputs) <= InputsIn(ms);
  }

  /** What the transaction of a successful run is. */
  lemma SuccessMeans(s: State, ms: set<PoolMessage>)
    requires Sound(s) && Sourced(s, ms) && s.pc.Finished?
    ensures s.inner.finalTx.Some?
    ensures PaysEveryone(s.inner.finalTx.value, s.inner)
    ensures SpendsReceived(s.inner.finalTx.value, s.inner, ms)
  {
    var b := s.inner.coinjoin.value;
    TemplatePays(b, s.inner, b.tx.value);
    CompleteSpends(b, s.inner, ms);
  }

  // ---------------------------------------------------------------- panics

  /** The input that a poll offers. */
  function Offered(t: Tick): Option<InputDataSigned> {
    if t.recv.Message? then Offer(t.recv.message) else None
  }

  /** There are enough inputs to try, and the outputs overflow 64 bits, or a prefix of the claims does. */
  ghost predicate TallyPanics(b: Builder) {
    && |b.inputs| >= |b.outputs|
    && (|b.outputs| * b.denomination >= U64_LIMIT || exists k: nat :: Overflows(0, Claimed(b.inputs), k))
  }

  /** The state and the event of each panic. */
  ghost predicate Explained(reason: Reason, signer: Option<Wallet>, s: State, t: Tick) {
    var n := s.inner;
    match reason
    case JoinWithoutKey => false
    case InputDuringOutputRound =>
      && s.pc.OutputRound? && t.now < s.pc.until && |s.pc.cj.outputs| < |s.pc.seen|
      && t.recv.Message? && t.recv.message.Input?
    case SignerPanic =>
      s.pc.SignRound? && n.input.Some? && signer.Some? && SigningPanics(signer.value, n.input.value)
    case DeadlineOverflow =>
      && s.pc.InputDeadline? && HasPayload(n) && Payload(n).timeout.Timeout?
      && t.now + Payload(n).timeout.maxDuration >= U64_LIMIT
    case AmountOverflow =>
      && s.pc.InputRound? && t.now < s.pc.until && n.coinjoin.Some? && Offered(t).Some?
      && TallyPanics(TryRegister(n, Offered(t).value).coinjoin.value)
  }

  /** `x` is a panic exactly for the reasons explained. */
  ghost predicate PanicsAsExplained(x: State, signer: Option<Wallet>, s: State, t: Tick) {
    forall reason: Reason :: Explained(reason, signer, s, t) <==> x.pc == Aborted(reason)
  }

  /** Exactly when an arriving input makes the participant panic. */
  lemma RegisterPanicsIff(n: Inner, until: u64, i: InputDataSigned)
    requires AtInputs(n)
    ensures RegisterAndFinalize(n, until, i).pc.Aborted? <==> TallyPanics(TryRegister(n, i).coinjoin.value)
    ensures RegisterAndFinalize(n, until, i).pc.Aborted? ==>
              RegisterAndFinalize(n, until, i).pc == Aborted(AmountOverflow)
  {
    TryRegisterAtInputs(n, i);
    var b := TryRegister(n, i).coinjoin.value;
    TemplateTotal(b.outputs, b.denomination);
    FinalizePanicsIff(b);
  }

  lemma InputRoundPanicsIff(n: Inner, until: u64, signer: Option<Wallet>, t: Tick)
    requires AtInputs(n)
    ensures PanicsAsExplained(StepInputRound(n, until, t), signer, State(n, InputRound(until)), t)
  {
    if t.now < until && Offered(t).Some? {
      var i := Offered(t).value;
      RegisterPanicsIff(n, until, i);
      assert StepInputRound(n, until, t) == RegisterAndFinalize(n, until, i);
    } else {
      assert !StepInputRound(n, until, t).pc.Aborted?;
    }
  }

  /** A Join without a key is replaced by one with the sender's key before it is looked at. */
  lemma PeerRoundNeverPanics(n: Inner, until: u64, early: bool, seen: set<Npub>, cj: Builder, t: Tick)
    requires HasPayload(n)
    ensures !StepPeerRound(n, until, early, seen, cj, t).pc.Aborted?
  {}

  /** Exactly when the unfinished handling of an early signed input is reached. */
  lemma OutputRoundPanicsIff(n: Inner, until: u64, seen: set<Npub>, cj: Builder, t: Tick)
    requires HasPayload(n)
    ensures StepOutputRound(n, until, seen, cj, t).pc.Aborted? <==>
              t.now < until && |cj.outputs| < |seen| && t.recv.Message? && t.recv.message.Input?
    ensures StepOutputRound(n, until, seen, cj, t).pc.Aborted? ==>
              StepOutputRound(n, until, seen, cj, t).pc == Aborted(InputDuringOutputRound)
  {}

  /** Exactly when signing the own coin makes the participant panic. */
  lemma SignRoundPanicsIff(n: Inner, signer: Option<Wallet>, t: Tick)
    requires AtSign(n)
    ensures StepSignRound(n, signer, t).pc.Aborted? <==>
              n.input.Some? && signer.Some? && SigningPanics(signer.value, n.input.value)
    ensures StepSignRound(n, signer, t).pc.Aborted? ==> StepSignRound(n, signer, t).pc == Aborted(SignerPanic)
  {
    TemplateCannotFail(n);
    var n1 := n.(coinjoin := Some(GeneratePsbt(n.coinjoin.value).0));
    if n1.input.Some? && signer.Some? {
      SignPanicsIff(signer.value, n1.coinjoin.value.psbt.value, n1.input.value);
      OwnInputPanicsIff(n1, signer.value, t);
    }
  }

  lemma OwnInputPanicsIff(n: Inner, w: Wallet, t: Tick)
    requires n.coinjoin.Some? && n.input.Some? && n.coinjoin.value.psbt.Some?
    ensures var s := SendOwnInput(n, w, t);
            && (s.pc.Aborted? <==> Sign(w, n.coinjoin.value.psbt.value, n.input.value).SignAbort?)
            && (s.pc.Aborted? ==> s.pc == Aborted(SignerPanic))
  {}

  lemma InputDeadlinePanics(n: Inner, t: Tick)
    requires AtInputs(n)
    ensures StepInputDeadline(n, t).pc.Aborted? ==> StepInputDeadline(n, t).pc == Aborted(DeadlineOverflow)
  {}

  lemma GatheringNeverPanics(s: State, t: Tick)
    requires s.pc.Joining? || s.pc.DummyJoin? || s.pc.PeerRound?
    ensures !StepGathering(s, t).pc.Aborted?
  {
    if s.pc.PeerRound? && HasPayload(s.inner) {
      PeerRoundNeverPanics(s.inner, s.pc.until, s.pc.early, s.pc.seen, s.pc.cj, t);
    }
  }

  lemma OutputsPanicIff(signer: Option<Wallet>, s: State, t: Tick)
    requires Sound(s) && (s.pc.OwnOutput? || s.pc.OutputRound? || s.pc.OutputCheck?)
    ensures PanicsAsExplained(StepOutputs(s, t), signer, s, t)
  {
    if s.pc.OutputRound? {
      OutputRoundPanicsIff(s.inner, s.pc.until, s.pc.seen, s.pc.cj, t);
    } else {
      assert !StepOutputs(s, t).pc.Aborted?;
    }
  }

  lemma InputsPanicIff(signer: Option<Wallet>, s: State, t: Tick)
    requires Sound(s) && !s.pc.Aborted?
    requires !s.pc.OutputRound?
    ensures PanicsAsExplained(StepInputs(signer, s, t), signer, s, t)
  {
    if s.pc.SignRound? {
      SignRoundPanicsIff(s.inner, signer, t);
    } else if s.pc.InputDeadline? {
      InputDeadlineSound(s.inner, t);
      InputDeadlinePanics(s.inner, t);
    } else if s.pc.InputRound? {
      InputRoundPanicsIff(s.inner, s.pc.until, signer, t);
    } else {
      assert !StepInputs(signer, s, t).pc.Aborted?;
    }
  }

  /** Exactly when a step of a run panics, and why: each reason needs its state and its event, and given
      them it happens. The panic on a Join without a key never does. */
  lemma PanicsIff(signer: Option<Wallet>, s: State, t: Tick)
    requires Sound(s) && !s.pc.Aborted?
    ensures PanicsAsExplained(Step(signer, s, t), signer, s, t)
  {
    if s.pc.Joining? || s.pc.DummyJoin? || s.pc.PeerRound? {
      GatheringNeverPanics(s, t);
    } else if s.pc.OwnOutput? || s.pc.OutputRound? || s.pc.OutputCheck? {
      OutputsPanicIff(signer, s, t);
    } else {
      InputsPanicIff(signer, s, t);
    }
  }
}
