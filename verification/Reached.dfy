/** Agreement is reached: a run in which two participants exchange addresses and signed inputs, and both
    finish with the same transaction, which spends both their coins. */
module PoolReached {
  import opened Permutations
  import opened Bitcoin
  import opened Nostr
  import opened CoinJoinSpec
  import opened CoinJoinLaws
  import opened Signer
  import opened JoinstrSpec
  import opened JoinstrLaws
  import opened JoinstrOutcomes
  import opened PoolNetwork
  import opened PoolTightness
  import Float64

  // ---------------------------------------------------------------- walking through a network

  /** A participant that hears only what has been posted may take its steps in the network, and what was
      posted stays posted. */
  lemma {:induction false} WalkAmongPosted(
    signers: seq<Option<Wallet>>, net: Net, p: PoolPayload, k: nat, ticks: seq<Tick>)
    requires NetOk(signers, net, p) && k < |net.nodes|
    requires forall i :: 0 <= i < |ticks| ==> Heard(ticks[i], Mailbox(net))
    ensures PossibleRun(signers, net, StepsOf(k, ticks))
    ensures var end := NetRun(signers, net, StepsOf(k, ticks));
            && end == net.(nodes := net.nodes[k := Walk(signers[k], net.nodes[k], ticks)])
            && NetOk(signers, end, p) && Mailbox(net) <= Mailbox(end)
    decreases ticks
  {
    var events := StepsOf(k, ticks);
    if ticks == [] {
      assert events == [] && net.nodes[k := net.nodes[k]] == net.nodes;
    } else {
      var next := NetStep(signers, net, events[0]);
      assert events[1..] == StepsOf(k, ticks[1..]);
      assert Heard(ticks[0], Mailbox(net));
      assert Possible(net, events[0]);
      NetStepOk(signers, net, p, events[0]);
      MailboxGrows(signers, net, p, events[0]);
      WalkAmongPosted(signers, next, p, k, ticks[1..]);
      assert next.nodes[k := Walk(signers[k], next.nodes[k], ticks[1..])]
          == net.nodes[k := Walk(signers[k], net.nodes[k], ticks)];
    }
  }

  // ---------------------------------------------------------------- a signer and two coins

  const KEY: PubKey := [2]

  function Library(): Crypto {
    Crypto(_ => KEY, _ => [], (_, _) => [], (_, _, _) => true)
  }

  function AnyWallet(): Wallet {
    Wallet(Library(), (_, _) => 0, (_, _) => KEY)
  }

  function CoinNumber(id: nat): Coin {
    Coin(TxOut(5000, [0, 20]), OutPoint(id, 0), 0, CoinPath(0, Some(0)))
  }

  function SignedCoin(id: nat): InputDataSigned {
    InputDataSigned(TxIn(OutPoint(id, 0), [], 0, [[0x81], KEY]), Some(5000))
  }

  lemma AnyTemplateIsSigned(tx: Transaction, id: nat)
    requires tx.input == []
    ensures Sign(AnyWallet(), tx, CoinNumber(id)) == Signed(SignedCoin(id))
  {
    assert [0, 20] + Library().hash160(KEY) == [0, 20];
    var none: Bytes := [];
    assert none + [0x81] == [0x81];
  }

  // ---------------------------------------------------------------- one participant

  const TERMS: PoolPayload := PoolPayload(1000, 2, Simple(10), FixedFee(0))
  const TABLE: Pool := Pool("pool", 0, Regtest, Some(TERMS))

  function Sitting(id: nat, a: Address): Inner {
    Inner(Peer, Configured, None, None, None, None, true, None, Regtest, None, false,
          Some(CoinNumber(id)), Some(a), None, [], [], [], id, 0, [])
  }

  function Seated(id: nat, a: Address): Inner {
    Sitting(id, a).(pool := Some(TABLE), phase := OutputRegistration, key := 5, outbox := [Join(Some(id))])
  }

  function Opening(id: nat, a: Address): State {
    Begin(Sitting(id, a), Some(TABLE), "", Idle())
  }

  function Empty(): Builder {
    New(2, 1000, 0)
  }

  lemma Opens(id: nat, a: Address)
    ensures Opening(id, a) == State(Seated(id, a).(phase := Connecting, key := 0), Joining(10))
  {}

  function Knowing(id: nat, a: Address, peers: seq<Npub>): Inner {
    Seated(id, a).(peers := peers)
  }

  lemma MeetsPeers(id: nat, a: Address, signer: Option<Wallet>)
    ensures Step(signer, State(Seated(id, a).(phase := Connecting, key := 0), Joining(10)), Hears(CREDENTIALS))
         == State(Knowing(id, a, []), PeerRound(10, true, {}, Empty()))
    ensures Step(signer, State(Knowing(id, a, []), PeerRound(10, true, {}, Empty())), Hears(Join(Some(1))))
         == State(Knowing(id, a, [1]), PeerRound(10, true, {1}, Empty()))
    ensures Step(signer, State(Knowing(id, a, [1]), PeerRound(10, true, {1}, Empty())), Hears(Join(Some(2))))
         == State(Knowing(id, a, [1, 2]), PeerRound(10, true, {1, 2}, Empty()))
  {
    assert {} + {1} == {1} && {1} + {2} == {1, 2};
  }

  function Offering(id: nat, a: Address): Inner {
    Knowing(id, a, [1, 2]).(outputs := [a], outbox := [Join(Some(id)), Output(a)])
  }

  lemma OffersAddress(id: nat, a: Address, signer: Option<Wallet>)
    ensures Step(signer, State(Knowing(id, a, [1, 2]), PeerRound(10, true, {1, 2}, Empty())), Idle())
         == State(Knowing(id, a, [1, 2]), OwnOutput({1, 2}, Empty()))
    ensures Step(signer, State(Knowing(id, a, [1, 2]), OwnOutput({1, 2}, Empty())), Idle())
         == State(Offering(id, a), OutputRound(10, {1, 2}, Empty().(outputs := [a])))
  {
    var n := Knowing(id, a, [1, 2]);
    assert n.outputs + [a] == [a] && n.outbox + [Output(a)] == [Join(Some(id)), Output(a)];
    assert AddOutput(Empty(), a).outputs == [a];
    assert AddOutput(Empty(), a) == Empty().(outputs := [a]);
  }

  function Complete2(id: nat, a: Address, b: Address): Inner {
    Offering(id, a).(outputs := [a, b])
  }

  function Both(a: Address, b: Address): Builder {
    Empty().(outputs := [a, b])
  }

  lemma HearsAddress(id: nat, a: Address, b: Address, signer: Option<Wallet>)
    requires a != b && b.ValidForNetwork(Regtest)
    ensures Step(signer, State(Offering(id, a), OutputRound(10, {1, 2}, Empty().(outputs := [a]))), Hears(Output(b)))
         == State(Complete2(id, a, b), OutputRound(10, {1, 2}, Both(a, b)))
    ensures Step(signer, State(Complete2(id, a, b), OutputRound(10, {1, 2}, Both(a, b))), Idle())
         == State(Complete2(id, a, b), OutputCheck(10, {1, 2}, Both(a, b)))
    ensures Step(signer, State(Complete2(id, a, b), OutputCheck(10, {1, 2}, Both(a, b))), Idle())
         == State(Complete2(id, a, b).(coinjoin := Some(Both(a, b))), SignRound)
  {
    assert [a] + [b] == [a, b];
    var cj := Empty().(outputs := [a]);
    assert AddOutput(cj, b) == Both(a, b);
  }

  function Frozen(a: Address, b: Address): Builder {
    Both(a, b).(psbt := Some(UnsignedTx([a, b], 1000)))
  }

  function Signing(id: nat, a: Address, b: Address): Inner {
    Complete2(id, a, b).(
      coinjoin := Some(Frozen(a, b)), input := None, inputs := [SignedCoin(id)],
      outbox := [Join(Some(id)), Output(a), Input(SignedCoin(id))])
  }

  lemma AtTheSigning(id: nat, a: Address, b: Address)
    requires a != b
    ensures AtSign(Complete2(id, a, b).(coinjoin := Some(Both(a, b))))
  {
    assert Distinct([a, b]);
  }

  lemma SendsInput(id: nat, a: Address, b: Address)
    requires a != b
    ensures Step(Some(AnyWallet()), State(Complete2(id, a, b).(coinjoin := Some(Both(a, b))), SignRound), Idle())
         == State(Signing(id, a, b), InputDeadline)
  {
    var n := Complete2(id, a, b).(coinjoin := Some(Both(a, b)));
    AtTheSigning(id, a, b);
    SignRoundOutcome(n, Some(AnyWallet()), Idle());
    AnyTemplateIsSigned(TemplateOf(n), id);
    assert n.inputs + [SignedCoin(id)] == [SignedCoin(id)];
    assert n.outbox + [Input(SignedCoin(id))] == [Join(Some(id)), Output(a), Input(SignedCoin(id))];
  }

  lemma EntersInputRound(id: nat, a: Address, b: Address, signer: Option<Wallet>)
    ensures Step(signer, State(Signing(id, a, b), InputDeadline), Idle()) == State(Signing(id, a, b), InputStart(10))
    ensures Step(signer, State(Signing(id, a, b), InputStart(10)), Idle()) == State(Signing(id, a, b), InputRound(10))
  {}

  // ---------------------------------------------------------------- three phases

  function Phase1(): seq<Tick> {
    [Hears(CREDENTIALS), Hears(Join(Some(1))), Hears(Join(Some(2)))] + [Idle(), Idle()]
  }

  function Phase2(b: Address): seq<Tick> {
    [Hears(Output(b)), Idle(), Idle()] + [Idle(), Idle(), Idle()]
  }

  function Phase3(): seq<Tick> {
    [Hears(Input(SignedCoin(1)))] + [Hears(Input(SignedCoin(2))), Idle(), Idle()]
  }

  function AfterPhase1(id: nat, a: Address): State {
    State(Offering(id, a), OutputRound(10, {1, 2}, Empty().(outputs := [a])))
  }

  function AfterPhase2(id: nat, a: Address, b: Address): State {
    State(Signing(id, a, b), InputRound(10))
  }

  lemma WalkTwo(signer: Option<Wallet>, s: State, t: Tick, u: Tick)
    ensures Walk(signer, s, [t, u]) == Step(signer, Step(signer, s, t), u)
  {
    var none: seq<Tick> := [];
    assert [t, u] == [t] + [u] && [u] == [u] + none;
    WalkOne(signer, s, t, [u]);
    WalkOne(signer, Step(signer, s, t), u, none);
  }

  lemma WalksPhase1(id: nat, a: Address, signer: Option<Wallet>)
    ensures Walk(signer, Opening(id, a), Phase1()) == AfterPhase1(id, a)
  {
    Opens(id, a);
    MeetsPeers(id, a, signer);
    WalkThree(signer, Opening(id, a), Hears(CREDENTIALS), Hears(Join(Some(1))), Hears(Join(Some(2))), [Idle(), Idle()]);
    OffersAddress(id, a, signer);
    WalkTwo(signer, State(Knowing(id, a, [1, 2]), PeerRound(10, true, {1, 2}, Empty())), Idle(), Idle());
  }

  lemma WalksPhase2(id: nat, a: Address, b: Address)
    requires a != b && b.ValidForNetwork(Regtest)
    ensures Walk(Some(AnyWallet()), AfterPhase1(id, a), Phase2(b)) == AfterPhase2(id, a, b)
  {
    var signer := Some(AnyWallet());
    var idle := [Idle(), Idle(), Idle()];
    HearsAddress(id, a, b, signer);
    WalkThree(signer, AfterPhase1(id, a), Hears(Output(b)), Idle(), Idle(), idle);
    SignsAndWaits(id, a, b);
  }

  lemma SignsAndWaits(id: nat, a: Address, b: Address)
    requires a != b
    ensures Walk(Some(AnyWallet()), State(Complete2(id, a, b).(coinjoin := Some(Both(a, b))), SignRound),
                 [Idle(), Idle(), Idle()]) == AfterPhase2(id, a, b)
  {
    var signer, start := Some(AnyWallet()), State(Complete2(id, a, b).(coinjoin := Some(Both(a, b))), SignRound);
    SendsInput(id, a, b);
    EntersInputRound(id, a, b, signer);
    var none: seq<Tick> := [];
    assert [Idle(), Idle(), Idle()] == [Idle(), Idle(), Idle()] + none;
    WalkThree(signer, start, Idle(), Idle(), Idle(), none);
  }

  // ---------------------------------------------------------------- the input round

  lemma AtTheInputs(id: nat, a: Address, b: Address)
    requires a != b
    ensures AtInputs(Signing(id, a, b))
  {
    assert Distinct([a, b]);
  }

  function WithFirst(id: nat, a: Address, b: Address): Inner {
    Signing(id, a, b).(
      coinjoin := Some(Frozen(a, b).(inputs := [SignedCoin(1)])), inputs := [SignedCoin(id), SignedCoin(1)])
  }

  /** One input for two outputs is not enough: the round goes on. */
  lemma HearsFirstInput(id: nat, a: Address, b: Address, signer: Option<Wallet>)
    requires a != b
    ensures Step(signer, State(Signing(id, a, b), InputRound(10)), Hears(Input(SignedCoin(1))))
         == State(WithFirst(id, a, b), InputRound(10))
    ensures AtInputs(WithFirst(id, a, b))
  {
    var n := Signing(id, a, b);
    AtTheInputs(id, a, b);
    InputIsRegistered(signer, n, 10, SignedCoin(1), Hears(Input(SignedCoin(1))));
    TryRegisterAtInputs(n, SignedCoin(1));
    FirstIsRegistered(id, a, b);
  }

  lemma FirstIsRegistered(id: nat, a: Address, b: Address)
    ensures TryRegister(Signing(id, a, b), SignedCoin(1)) == WithFirst(id, a, b)
  {
    var n := Signing(id, a, b);
    AddInputIff(n.coinjoin.value, SignedCoin(1));
    assert n.coinjoin.value.inputs + [SignedCoin(1)] == [SignedCoin(1)];
    assert n.inputs + [SignedCoin(1)] == [SignedCoin(id), SignedCoin(1)];
  }

  lemma SecondCompletes(id: nat, a: Address, b: Address)
    ensures Completable(TryRegister(WithFirst(id, a, b), SignedCoin(2)).coinjoin.value)
  {
    var n := WithFirst(id, a, b);
    AddInputIff(n.coinjoin.value, SignedCoin(2));
    var cj := TryRegister(n, SignedCoin(2)).coinjoin.value;
    assert cj.inputs == [SignedCoin(1), SignedCoin(2)];
    TemplateTotal([a, b], 1000);
    var tx := Assemble(cj.psbt.value, cj.inputs);
    ClaimsOfBoth();
    Float64.FeeTestIff(8000, Weight(tx), 0);
  }

  lemma ClaimsOfBoth()
    ensures Claimed([SignedCoin(1), SignedCoin(2)]) == [Some(5000), Some(5000)]
    ensures KnownSum([Some(5000), Some(5000)]) == 10000
  {
    SumOfOne(AmountOrZero, Some(5000));
    SumAppend(AmountOrZero, [Some(5000)], [Some(5000)]);
    assert [Some(5000)] + [Some(5000)] == [Some(5000), Some(5000)];
  }

  lemma WalksPhase3(id: nat, a: Address, b: Address, signer: Option<Wallet>)
    requires a != b
    ensures Walk(signer, AfterPhase2(id, a, b), Phase3()).pc.Finished?
    ensures Walk(signer, AfterPhase2(id, a, b), Phase3()).inner.outbox == Signing(id, a, b).outbox
  {
    var first, second := Hears(Input(SignedCoin(1))), Hears(Input(SignedCoin(2)));
    var none: seq<Tick> := [];
    HearsFirstInput(id, a, b, signer);
    WalkOne(signer, AfterPhase2(id, a, b), first, [second, Idle(), Idle()]);
    assert [second, Idle(), Idle()] == [second, Idle(), Idle()] + none;
    WalkThree(signer, State(WithFirst(id, a, b), InputRound(10)), second, Idle(), Idle(), none);
    SecondCompletes(id, a, b);
    CompletingInputFinishes(signer, WithFirst(id, a, b), 10, SignedCoin(2), second, Idle(), Idle());
    SecondSendsNothing(signer, WithFirst(id, a, b));
  }

  lemma SecondSendsNothing(signer: Option<Wallet>, n: Inner)
    requires AtInputs(n) && Completable(TryRegister(n, SignedCoin(2)).coinjoin.value)
    ensures var s := Step(signer, State(n, InputRound(10)), Hears(Input(SignedCoin(2))));
            Step(signer, Step(signer, s, Idle()), Idle()).inner.outbox == n.outbox
  {
    RoundCompletesIff(n, 10, SignedCoin(2));
    InputIsRegistered(signer, n, 10, SignedCoin(2), Hears(Input(SignedCoin(2))));
    RegisterContinues(n, 10, SignedCoin(2));
    ClosesQuietly(signer, RegisterAndFinalize(n, 10, SignedCoin(2)).inner);
  }

  lemma ClosesQuietly(signer: Option<Wallet>, n: Inner)
    ensures Step(signer, Step(signer, State(n, InputCheck(10)), Idle()), Idle()).inner.outbox == n.outbox
  {
    assert Step(signer, State(n, InputCheck(10)), Idle()) == State(n, Broadcasting);
  }

  // ---------------------------------------------------------------- two participants

  const SIGNERS: seq<Option<Wallet>> := [Some(AnyWallet()), Some(AnyWallet())]

  function Pair(first: State, second: State): Net {
    Net([first, second], {CREDENTIALS})
  }

  /** One participant of the pair walks on; both walks together are possible if what was heard was posted. */
  lemma Leg(net: Net, k: nat, ticks: seq<Tick>, end: State, ms: set<PoolMessage>) returns (after: Net)
    requires NetOk(SIGNERS, net, TERMS) && k < |net.nodes| && ms <= Mailbox(net)
    requires forall i :: 0 <= i < |ticks| ==> Heard(ticks[i], ms)
    requires Walk(Some(AnyWallet()), net.nodes[k], ticks) == end
    ensures after == net.(nodes := net.nodes[k := end])
    ensures PossibleRun(SIGNERS, net, StepsOf(k, ticks)) && NetRun(SIGNERS, net, StepsOf(k, ticks)) == after
    ensures NetOk(SIGNERS, after, TERMS) && Mailbox(net) <= Mailbox(after)
    ensures forall m :: m in end.inner.outbox ==> m in Mailbox(after)
  {
    after := net.(nodes := net.nodes[k := end]);
    WalkAmongPosted(SIGNERS, net, TERMS, k, ticks);
    forall m | m in end.inner.outbox
      ensures m in Mailbox(after)
    {
      PostedByNode(after, k, m);
    }
  }

  /** Both walk the same phase, one after the other. */
  lemma Round(net: Net, first: seq<Tick>, second: seq<Tick>, ends: (State, State), ms: set<PoolMessage>)
    returns (after: Net)
    requires |net.nodes| == 2 && NetOk(SIGNERS, net, TERMS) && ms <= Mailbox(net)
    requires forall i :: 0 <= i < |first| ==> Heard(first[i], ms)
    requires forall i :: 0 <= i < |second| ==> Heard(second[i], ms)
    requires Walk(Some(AnyWallet()), net.nodes[0], first) == ends.0
    requires Walk(Some(AnyWallet()), net.nodes[1], second) == ends.1
    ensures after == Net([ends.0, ends.1], net.outsiders)
    ensures PossibleRun(SIGNERS, net, StepsOf(0, first) + StepsOf(1, second))
    ensures NetRun(SIGNERS, net, StepsOf(0, first) + StepsOf(1, second)) == after
    ensures NetOk(SIGNERS, after, TERMS) && Mailbox(net) <= Mailbox(after)
    ensures forall m :: m in ends.0.inner.outbox || m in ends.1.inner.outbox ==> m in Mailbox(after)
  {
    var middle := Leg(net, 0, first, ends.0, ms);
    after := Leg(middle, 1, second, ends.1, ms);
    RunsConcatenate(SIGNERS, net, StepsOf(0, first), StepsOf(1, second));
    assert after.nodes == [ends.0, ends.1];
  }

  function Beginning2(a: Address, b: Address): Net {
    Pair(Opening(1, a), Opening(2, b))
  }

  lemma BothSitDown(a: Address, b: Address)
    ensures Started(Beginning2(a, b), TERMS) && NetOk(SIGNERS, Beginning2(a, b), TERMS)
    ensures {CREDENTIALS, Join(Some(1)), Join(Some(2))} <= Mailbox(Beginning2(a, b))
  {
    SitsDown(1, a);
    SitsDown(2, b);
    StartedOk(SIGNERS, Beginning2(a, b), TERMS);
    PostedByNode(Beginning2(a, b), 0, Join(Some(1)));
    PostedByNode(Beginning2(a, b), 1, Join(Some(2)));
  }

  lemma SitsDown(id: nat, a: Address)
    ensures InPool(Opening(id, a), TERMS) && HasBegun(Opening(id, a))
    ensures Opening(id, a).inner.outbox == [Join(Some(id))]
  {
    Opens(id, a);
    assert BegunFrom(Opening(id, a), Sitting(id, a), Some(TABLE), "", Idle());
  }

  function Finishing(id: nat, a: Address, b: Address): State {
    Walk(Some(AnyWallet()), AfterPhase2(id, a, b), Phase3())
  }

  function FirstRound(): seq<Event> {
    StepsOf(0, Phase1()) + StepsOf(1, Phase1())
  }

  function SecondRound(a: Address, b: Address): seq<Event> {
    StepsOf(0, Phase2(b)) + StepsOf(1, Phase2(a))
  }

  function ThirdRound(): seq<Event> {
    StepsOf(0, Phase3()) + StepsOf(1, Phase3())
  }

  /** All that the ticks bring is among these messages. */
  ghost predicate AllHeard(ticks: seq<Tick>, ms: set<PoolMessage>) {
    forall i :: 0 <= i < |ticks| ==> Heard(ticks[i], ms)
  }

  lemma PhasesHear(a: Address)
    ensures AllHeard(Phase1(), {CREDENTIALS, Join(Some(1)), Join(Some(2))})
    ensures AllHeard(Phase2(a), {Output(a)})
    ensures AllHeard(Phase3(), {Input(SignedCoin(1)), Input(SignedCoin(2))})
  {
    assert Phase1() == [Hears(CREDENTIALS), Hears(Join(Some(1))), Hears(Join(Some(2))), Idle(), Idle()];
    assert Phase2(a) == [Hears(Output(a)), Idle(), Idle(), Idle(), Idle(), Idle()];
    assert Phase3() == [Hears(Input(SignedCoin(1))), Hears(Input(SignedCoin(2))), Idle(), Idle()];
  }

  /** A round in terms of the states before and after it. */
  lemma RoundOf(
    s0: State, s1: State, first: seq<Tick>, second: seq<Tick>, e0: State, e1: State, ms: set<PoolMessage>)
    requires NetOk(SIGNERS, Pair(s0, s1), TERMS) && ms <= Mailbox(Pair(s0, s1))
    requires AllHeard(first, ms) && AllHeard(second, ms)
    requires Walk(Some(AnyWallet()), s0, first) == e0 && Walk(Some(AnyWallet()), s1, second) == e1
    ensures PossibleRun(SIGNERS, Pair(s0, s1), StepsOf(0, first) + StepsOf(1, second))
    ensures NetRun(SIGNERS, Pair(s0, s1), StepsOf(0, first) + StepsOf(1, second)) == Pair(e0, e1)
    ensures NetOk(SIGNERS, Pair(e0, e1), TERMS)
    ensures forall m :: m in e0.inner.outbox || m in e1.inner.outbox ==> m in Mailbox(Pair(e0, e1))
  {
    var after := Round(Pair(s0, s1), first, second, (e0, e1), ms);
  }

  lemma PhasesPost(a: Address, b: Address)
    ensures Output(a) in AfterPhase1(1, a).inner.outbox && Output(b) in AfterPhase1(2, b).inner.outbox
    ensures Input(SignedCoin(1)) in AfterPhase2(1, a, b).inner.outbox
    ensures Input(SignedCoin(2)) in AfterPhase2(2, b, a).inner.outbox
  {}

  lemma MoreHeard(ticks: seq<Tick>, ms: set<PoolMessage>, more: set<PoolMessage>)
    requires AllHeard(ticks, ms) && ms <= more
    ensures AllHeard(ticks, more)
  {}

  lemma RoundOne(a: Address, b: Address)
    ensures PossibleRun(SIGNERS, Beginning2(a, b), FirstRound())
    ensures NetRun(SIGNERS, Beginning2(a, b), FirstRound()) == Pair(AfterPhase1(1, a), AfterPhase1(2, b))
    ensures NetOk(SIGNERS, Pair(AfterPhase1(1, a), AfterPhase1(2, b)), TERMS)
    ensures {Output(a), Output(b)} <= Mailbox(Pair(AfterPhase1(1, a), AfterPhase1(2, b)))
  {
    BothSitDown(a, b);
    WalksPhase1(1, a, Some(AnyWallet()));
    WalksPhase1(2, b, Some(AnyWallet()));
    PhasesHear(a);
    RoundOf(Opening(1, a), Opening(2, b), Phase1(), Phase1(), AfterPhase1(1, a), AfterPhase1(2, b),
            {CREDENTIALS, Join(Some(1)), Join(Some(2))});
    PhasesPost(a, b);
  }

  lemma RoundTwo(a: Address, b: Address)
    requires a != b && a.ValidForNetwork(Regtest) && b.ValidForNetwork(Regtest)
    requires NetOk(SIGNERS, Pair(AfterPhase1(1, a), AfterPhase1(2, b)), TERMS)
    requires {Output(a), Output(b)} <= Mailbox(Pair(AfterPhase1(1, a), AfterPhase1(2, b)))
    ensures PossibleRun(SIGNERS, Pair(AfterPhase1(1, a), AfterPhase1(2, b)), SecondRound(a, b))
    ensures NetRun(SIGNERS, Pair(AfterPhase1(1, a), AfterPhase1(2, b)), SecondRound(a, b))
         == Pair(AfterPhase2(1, a, b), AfterPhase2(2, b, a))
    ensures NetOk(SIGNERS, Pair(AfterPhase2(1, a, b), AfterPhase2(2, b, a)), TERMS)
    ensures {Input(SignedCoin(1)), Input(SignedCoin(2))} <= Mailbox(Pair(AfterPhase2(1, a, b), AfterPhase2(2, b, a)))
  {
    WalksPhase2(1, a, b);
    WalksPhase2(2, b, a);
    PhasesHear(a);
    PhasesHear(b);
    MoreHeard(Phase2(a), {Output(a)}, {Output(a), Output(b)});
    MoreHeard(Phase2(b), {Output(b)}, {Output(a), Output(b)});
    RoundOf(AfterPhase1(1, a), AfterPhase1(2, b), Phase2(b), Phase2(a), AfterPhase2(1, a, b), AfterPhase2(2, b, a),
            {Output(a), Output(b)});
    PhasesPost(a, b);
  }

  lemma RoundThree(a: Address, b: Address)
    requires NetOk(SIGNERS, Pair(AfterPhase2(1, a, b), AfterPhase2(2, b, a)), TERMS)
    requires {Input(SignedCoin(1)), Input(SignedCoin(2))} <= Mailbox(Pair(AfterPhase2(1, a, b), AfterPhase2(2, b, a)))
    ensures PossibleRun(SIGNERS, Pair(AfterPhase2(1, a, b), AfterPhase2(2, b, a)), ThirdRound())
    ensures NetRun(SIGNERS, Pair(AfterPhase2(1, a, b), AfterPhase2(2, b, a)), ThirdRound())
         == Pair(Finishing(1, a, b), Finishing(2, b, a))
    ensures NetOk(SIGNERS, Pair(Finishing(1, a, b), Finishing(2, b, a)), TERMS)
  {
    PhasesHear(a);
    RoundOf(AfterPhase2(1, a, b), AfterPhase2(2, b, a), Phase3(), Phase3(), Finishing(1, a, b), Finishing(2, b, a),
            {Input(SignedCoin(1)), Input(SignedCoin(2))});
  }

  lemma PostedInTheEnd(net: Net, a: Address, b: Address)
    requires |net.nodes| == 2 && net.outsiders == {CREDENTIALS}
    requires net.nodes[0].inner.outbox == [Join(Some(1)), Output(a), Input(SignedCoin(1))]
    requires net.nodes[1].inner.outbox == [Join(Some(2)), Output(b), Input(SignedCoin(2))]
    ensures AddressesIn(Mailbox(net)) <= {a, b} && InputsIn(Mailbox(net)) <= {SignedCoin(1), SignedCoin(2)}
  {
    forall m | m in Mailbox(net)
      ensures m in {CREDENTIALS, Join(Some(1)), Join(Some(2)), Output(a), Output(b),
                    Input(SignedCoin(1)), Input(SignedCoin(2))}
    {
      if m !in net.outsiders {
        var k :| 0 <= k < |net.nodes| && m in net.nodes[k].inner.outbox;
      }
    }
  }

  lemma NotCrowded(ms: set<PoolMessage>, a: Address, b: Address)
    requires AddressesIn(ms) <= {a, b} && InputsIn(ms) <= {SignedCoin(1), SignedCoin(2)}
    ensures Uncrowded(ms, 2)
  {
    SubsetCardinality(AddressesIn(ms), {a, b});
    var points := {OutPoint(1, 0), OutPoint(2, 0)};
    assert OutPointsIn(ms) <= points;
    SubsetCardinality(OutPointsIn(ms), points);
  }

  /** Two participants with different addresses of the pool's network exchange everything and finish with
      the same transaction, which spends both coins validly. */
  lemma TwoParticipantsAgree(a: Address, b: Address)
    returns (net: Net, events: seq<Event>, tx: Transaction)
    requires a != b && a.ValidForNetwork(Regtest) && b.ValidForNetwork(Regtest)
    ensures |net.nodes| == 2 && Started(net, TERMS) && PossibleRun(SIGNERS, net, events)
    ensures var end := NetRun(SIGNERS, net, events);
            && Uncrowded(Mailbox(end), TERMS.peers)
            && end.nodes[0].pc.Finished? && end.nodes[0].inner.finalTx == Some(tx)
            && end.nodes[1].pc.Finished? && end.nodes[1].inner.finalTx == Some(tx)
    ensures forall id :: id == 1 || id == 2 ==> exists coin :: Spends(AnyWallet(), tx, SignedCoin(id), coin)
  {
    net := Beginning2(a, b);
    BothSitDown(a, b);
    RoundOne(a, b);
    RoundTwo(a, b);
    RoundThree(a, b);
    var one, three := Pair(AfterPhase1(1, a), AfterPhase1(2, b)), Pair(Finishing(1, a, b), Finishing(2, b, a));
    RunsConcatenate(SIGNERS, one, SecondRound(a, b), ThirdRound());
    RunsConcatenate(SIGNERS, net, FirstRound(), SecondRound(a, b) + ThirdRound());
    events := FirstRound() + (SecondRound(a, b) + ThirdRound());
    tx := TheTransaction(three, a, b);
  }

  lemma TheTransaction(end: Net, a: Address, b: Address) returns (tx: Transaction)
    requires a != b && end == Pair(Finishing(1, a, b), Finishing(2, b, a)) && NetOk(SIGNERS, end, TERMS)
    ensures Uncrowded(Mailbox(end), 2)
    ensures end.nodes[0].pc.Finished? && end.nodes[0].inner.finalTx == Some(tx)
    ensures end.nodes[1].pc.Finished? && end.nodes[1].inner.finalTx == Some(tx)
    ensures forall id :: id == 1 || id == 2 ==> exists coin :: Spends(AnyWallet(), tx, SignedCoin(id), coin)
  {
    WalksPhase3(1, a, b, Some(AnyWallet()));
    WalksPhase3(2, b, a, Some(AnyWallet()));
    PostedInTheEnd(end, a, b);
    NotCrowded(Mailbox(end), a, b);
    AgreementAt(SIGNERS, end, TERMS, 0, 1);
    tx := end.nodes[0].inner.finalTx.value;
    assert Input(SignedCoin(1)) in end.nodes[0].inner.outbox && Input(SignedCoin(2)) in end.nodes[1].inner.outbox;
    SentInputsAreSpentAt(SIGNERS, end, TERMS, 0, 0, SignedCoin(1));
    SentInputsAreSpentAt(SIGNERS, end, TERMS, 0, 1, SignedCoin(2));
  }
}
