/** Agreement needs its bound: with one address more than the pool has peers, two participants can finish
    with different transactions. */
module PoolTightness {
  import opened Permutations
  import opened Bitcoin
  import opened Nostr
  import opened CoinJoinSpec
  import opened CoinJoinLaws
  import opened Signer
  import opened JoinstrSpec
  import opened JoinstrLaws
  import opened PoolNetwork
  import Float64

  /** The states that follow from `s` by the ticks in order. */
  function Walk(signer: Option<Wallet>, s: State, ticks: seq<Tick>): State
    decreases ticks
  {
    if ticks == [] then s else Walk(signer, Step(signer, s, ticks[0]), ticks[1..])
  }

  function StepsOf(k: nat, ticks: seq<Tick>): (events: seq<Event>)
    ensures |events| == |ticks| && forall i :: 0 <= i < |ticks| ==> events[i] == NodeStep(k, ticks[i])
  {
    seq(|ticks|, i requires 0 <= i < |ticks| => NodeStep(k, ticks[i]))
  }

  /** A participant that hears only what outsiders posted may take its steps in the network. */
  lemma {:induction false} WalkInNetwork(signers: seq<Option<Wallet>>, net: Net, k: nat, ticks: seq<Tick>)
    requires |signers| == |net.nodes| && k < |net.nodes|
    requires forall i :: 0 <= i < |ticks| ==> Heard(ticks[i], net.outsiders)
    ensures PossibleRun(signers, net, StepsOf(k, ticks))
    ensures NetRun(signers, net, StepsOf(k, ticks))
         == net.(nodes := net.nodes[k := Walk(signers[k], net.nodes[k], ticks)])
    decreases ticks
  {
    var events := StepsOf(k, ticks);
    if ticks == [] {
      assert events == [] && net.nodes[k := net.nodes[k]] == net.nodes;
    } else {
      var next := NetStep(signers, net, events[0]);
      assert events[1..] == StepsOf(k, ticks[1..]);
      assert Heard(ticks[0], net.outsiders);
      WalkInNetwork(signers, next, k, ticks[1..]);
      assert next.nodes[k := Walk(signers[k], next.nodes[k], ticks[1..])]
          == net.nodes[k := Walk(signers[k], net.nodes[k], ticks)];
    }
  }

  lemma {:induction false} RunsConcatenate(signers: seq<Option<Wallet>>, net: Net, a: seq<Event>, b: seq<Event>)
    requires |signers| == |net.nodes|
    requires PossibleRun(signers, net, a) && PossibleRun(signers, NetRun(signers, net, a), b)
    ensures PossibleRun(signers, net, a + b)
    ensures NetRun(signers, net, a + b) == NetRun(signers, NetRun(signers, net, a), b)
    decreases a
  {
    if a == [] {
      assert a + b == b;
    } else {
      RunsConcatenate(signers, NetStep(signers, net, a[0]), a[1..], b);
      assert (a + b)[1..] == a[1..] + b && (a + b)[0] == a[0];
    }
  }

  // ---------------------------------------------------------------- one participant

  const PAYLOAD: PoolPayload := PoolPayload(1000, 1, Simple(10), FixedFee(0))
  const POOL: Pool := Pool("pool", 0, Regtest, Some(PAYLOAD))
  const SPENT: InputDataSigned := InputDataSigned(TxIn(OutPoint(1, 0), [], 0, []), Some(5000))

  const CREDENTIALS: PoolMessage := CredentialsMessage(Credentials("pool", 5))
  const JOIN: PoolMessage := Join(Some(7))

  function NewPeer(a: Address): Inner {
    Inner(Peer, Configured, None, None, None, None, true, None, Regtest, None, false,
          None, Some(a), None, [], [], [], 1, 0, [])
  }

  function Idle(): Tick {
    Tick(0, NoMessage, true, 0)
  }

  function Hears(m: PoolMessage): Tick {
    Tick(0, Message(0, m), true, 0)
  }

  function Connected(a: Address): Inner {
    NewPeer(a).(pool := Some(POOL), phase := OutputRegistration, key := 5, outbox := [Join(Some(1))])
  }

  function WithPeer(a: Address): Inner {
    Connected(a).(peers := [7])
  }

  function WithOutput(a: Address): Inner {
    WithPeer(a).(outputs := [a], outbox := [Join(Some(1)), Output(a)])
  }

  function Collected(a: Address): Builder {
    New(1, 1000, 0).(outputs := [a])
  }

  function Templating(a: Address): Inner {
    WithOutput(a).(coinjoin := Some(Collected(a).(psbt := Some(UnsignedTx([a], 1000)))))
  }

  lemma Begins(a: Address)
    ensures Begin(NewPeer(a), Some(POOL), "", Idle())
         == State(Connected(a).(phase := Connecting, key := 0), Joining(10))
  {}

  lemma Gathers(a: Address, signer: Option<Wallet>)
    ensures Step(signer, State(Connected(a).(phase := Connecting, key := 0), Joining(10)), Hears(CREDENTIALS))
         == State(Connected(a), PeerRound(10, true, {}, New(1, 1000, 0)))
    ensures Step(signer, State(Connected(a), PeerRound(10, true, {}, New(1, 1000, 0))), Hears(JOIN))
         == State(WithPeer(a), PeerRound(10, true, {7}, New(1, 1000, 0)))
    ensures Step(signer, State(WithPeer(a), PeerRound(10, true, {7}, New(1, 1000, 0))), Idle())
         == State(WithPeer(a), OwnOutput({7}, New(1, 1000, 0)))
  {
    assert {} + {7} == {7};
  }

  lemma Offers(a: Address, signer: Option<Wallet>)
    ensures Step(signer, State(WithPeer(a), OwnOutput({7}, New(1, 1000, 0))), Idle())
         == State(WithOutput(a), OutputRound(10, {7}, Collected(a)))
    ensures Step(signer, State(WithOutput(a), OutputRound(10, {7}, Collected(a))), Idle())
         == State(WithOutput(a), OutputCheck(10, {7}, Collected(a)))
    ensures Step(signer, State(WithOutput(a), OutputCheck(10, {7}, Collected(a))), Idle())
         == State(WithOutput(a).(coinjoin := Some(Collected(a))), SignRound)
  {
    assert WithPeer(a).outbox + [Output(a)] == [Join(Some(1)), Output(a)];
    assert WithPeer(a).outputs + [a] == [a];
    assert AddOutput(New(1, 1000, 0), a).outputs == [a];
    assert AddOutput(New(1, 1000, 0), a) == Collected(a);
  }

  lemma Freezes(a: Address, signer: Option<Wallet>)
    ensures Step(signer, State(WithOutput(a).(coinjoin := Some(Collected(a))), SignRound), Idle())
         == State(Templating(a), InputDeadline)
    ensures Step(signer, State(Templating(a), InputDeadline), Idle()) == State(Templating(a), InputStart(10))
    ensures Step(signer, State(Templating(a), InputStart(10)), Idle()) == State(Templating(a), InputRound(10))
  {
    assert Elements([a]) == {a};
  }

  function Start(a: Address): State {
    Begin(NewPeer(a), Some(POOL), "", Idle())
  }

  /** From the start to the input round. */
  function FirstTicks(): seq<Tick> {
    [Hears(CREDENTIALS), Hears(JOIN), Idle(), Idle(), Idle(), Idle(), Idle(), Idle(), Idle()]
  }

  function LastTicks(): seq<Tick> {
    [Hears(Input(SPENT)), Idle(), Idle()]
  }

  lemma WalkThree(signer: Option<Wallet>, s: State, a: Tick, b: Tick, c: Tick, rest: seq<Tick>)
    ensures Walk(signer, s, [a, b, c] + rest)
              == Walk(signer, Step(signer, Step(signer, Step(signer, s, a), b), c), rest)
  {
    var step := (x: State, t: Tick) => Step(signer, x, t);
    WalkOne(signer, s, a, [b, c] + rest);
    WalkOne(signer, step(s, a), b, [c] + rest);
    WalkOne(signer, step(step(s, a), b), c, rest);
    assert [a, b, c] + rest == [a] + ([b, c] + rest) && [b, c] + rest == [b] + ([c] + rest);
  }

  lemma WalkOne(signer: Option<Wallet>, s: State, t: Tick, rest: seq<Tick>)
    ensures Walk(signer, s, [t] + rest) == Walk(signer, Step(signer, s, t), rest)
  {
    assert ([t] + rest)[1..] == rest;
  }

  function AtOwnOutput(a: Address): State {
    State(WithPeer(a), OwnOutput({7}, New(1, 1000, 0)))
  }

  function AtSignRound(a: Address): State {
    State(WithOutput(a).(coinjoin := Some(Collected(a))), SignRound)
  }

  lemma WalkGathers(a: Address, signer: Option<Wallet>, rest: seq<Tick>)
    ensures Walk(signer, Start(a), [Hears(CREDENTIALS), Hears(JOIN), Idle()] + rest)
              == Walk(signer, AtOwnOutput(a), rest)
  {
    Begins(a);
    Gathers(a, signer);
    WalkThree(signer, Start(a), Hears(CREDENTIALS), Hears(JOIN), Idle(), rest);
  }

  lemma WalkOffers(a: Address, signer: Option<Wallet>, rest: seq<Tick>)
    ensures Walk(signer, AtOwnOutput(a), [Idle(), Idle(), Idle()] + rest) == Walk(signer, AtSignRound(a), rest)
  {
    Offers(a, signer);
    WalkThree(signer, AtOwnOutput(a), Idle(), Idle(), Idle(), rest);
  }

  lemma WalkFreezes(a: Address, signer: Option<Wallet>, rest: seq<Tick>)
    ensures Walk(signer, AtSignRound(a), [Idle(), Idle(), Idle()] + rest)
         == Walk(signer, State(Templating(a), InputRound(10)), rest)
  {
    Freezes(a, signer);
    WalkThree(signer, AtSignRound(a), Idle(), Idle(), Idle(), rest);
  }

  lemma ReachesInputRound(a: Address, signer: Option<Wallet>)
    ensures Walk(signer, Start(a), FirstTicks()) == State(Templating(a), InputRound(10))
  {
    var idle := [Idle(), Idle(), Idle()];
    assert FirstTicks() == [Hears(CREDENTIALS), Hears(JOIN), Idle()] + (idle + (idle + []));
    WalkGathers(a, signer, idle + (idle + []));
    WalkOffers(a, signer, idle + []);
    WalkFreezes(a, signer, []);
  }

  lemma {:induction false} WalkSound(signer: Option<Wallet>, s: State, ticks: seq<Tick>)
    requires Sound(s)
    ensures Sound(Walk(signer, s, ticks))
    decreases ticks
  {
    if ticks != [] {
      StepSound(signer, s, ticks[0]);
      WalkSound(signer, Step(signer, s, ticks[0]), ticks[1..]);
    }
  }

  lemma {:induction false} WalksConcatenate(signer: Option<Wallet>, s: State, a: seq<Tick>, b: seq<Tick>)
    ensures Walk(signer, s, a + b) == Walk(signer, Walk(signer, s, a), b)
    decreases a
  {
    if a == [] {
      assert a + b == b;
    } else {
      assert a + b == [a[0]] + (a[1..] + b) && a == [a[0]] + a[1..];
      WalkOne(signer, s, a[0], a[1..] + b);
      WalksConcatenate(signer, Step(signer, s, a[0]), a[1..], b);
    }
  }

  /** The one input funds the one output. */
  lemma SpentCompletes(a: Address)
    ensures Completable(TryRegister(Templating(a), SPENT).coinjoin.value)
  {
    var b := TryRegister(Templating(a), SPENT).coinjoin.value;
    assert b.inputs == [SPENT];
    var tx := Assemble(b.psbt.value, b.inputs);
    TemplateTotal([a], 1000);
    assert Claimed(b.inputs) == [Some(5000)];
    SumOfOne(AmountOrZero, Some(5000));
    Float64.FeeTestIff(4000, Weight(tx), 0);
  }

  lemma InputRoundSoundHere(a: Address)
    ensures AtInputs(Templating(a))
  {
    ReachesInputRound(a, None);
    BeginSound(NewPeer(a), Some(POOL), "", Idle());
    WalkSound(None, Start(a), FirstTicks());
  }

  function EndOf(a: Address): State {
    Walk(None, Start(a), FirstTicks() + LastTicks())
  }

  /** The three steps after the input round was reached. */
  function LastThree(n: Inner): State {
    Step(None, Step(None, Step(None, State(n, InputRound(10)), Hears(Input(SPENT))), Idle()), Idle())
  }

  lemma EndIs(a: Address)
    ensures EndOf(a) == LastThree(Templating(a))
  {
    ReachesInputRound(a, None);
    WalksConcatenate(None, Start(a), FirstTicks(), LastTicks());
    assert LastTicks() == [Hears(Input(SPENT)), Idle(), Idle()] + [];
    WalkThree(None, State(Templating(a), InputRound(10)), Hears(Input(SPENT)), Idle(), Idle(), []);
  }

  lemma EndSound(a: Address)
    ensures Sound(EndOf(a))
  {
    BeginSound(NewPeer(a), Some(POOL), "", Idle());
    WalkSound(None, Start(a), FirstTicks() + LastTicks());
  }

  lemma LastThreeFinish(n: Inner)
    requires AtInputs(n) && Completable(TryRegister(n, SPENT).coinjoin.value)
    ensures LastThree(n).pc.Finished?
  {
    CompletingInputFinishes(None, n, 10, SPENT, Hears(Input(SPENT)), Idle(), Idle());
  }

  /** The participant finishes, having sent its request and its own address. */
  lemma Finishes(a: Address)
    ensures Sound(EndOf(a)) && EndOf(a).pc.Finished?
    ensures EndOf(a).inner.outbox == [Join(Some(1)), Output(a)] && EndOf(a).inner.output == Some(a)
    ensures EndOf(a).inner.pool == Some(POOL)
  {
    EndIs(a);
    EndSound(a);
    InputRoundSoundHere(a);
    SpentCompletes(a);
    LastThreeFinish(Templating(a));
    LastStepsSendNothing(Templating(a));
  }

  lemma LastStepsSendNothing(n: Inner)
    requires AtInputs(n) && Completable(TryRegister(n, SPENT).coinjoin.value)
    ensures var s := LastThree(n);
            s.inner.outbox == n.outbox && s.inner.output == n.output && s.inner.pool == n.pool
  {
    RoundCompletesIff(n, 10, SPENT);
    InputIsRegistered(None, n, 10, SPENT, Hears(Input(SPENT)));
    RegisterContinues(n, 10, SPENT);
    CheckAndBroadcast(RegisterAndFinalize(n, 10, SPENT).inner);
  }

  lemma CheckAndBroadcast(n: Inner)
    ensures var s := Step(None, Step(None, State(n, InputCheck(10)), Idle()), Idle());
            s.inner.outbox == n.outbox && s.inner.output == n.output && s.inner.pool == n.pool
  {
    assert Step(None, State(n, InputCheck(10)), Idle()) == State(n, Broadcasting);
  }

  /** All that a finished transaction of this pool pays. */
  lemma PaysAlone(s: State, a: Address)
    requires Sound(s) && s.pc.Finished? && s.inner.output == Some(a)
    requires s.inner.pool == Some(POOL)
    ensures s.inner.finalTx.Some? && s.inner.finalTx.value.output == [TxOut(1000, a.script)]
  {
    var b := s.inner.coinjoin.value;
    TemplatePays(b, s.inner, b.tx.value);
    var outs := b.tx.value.output;
    assert |outs| == 1 && TxOut(1000, a.script) in outs;
  }

  // ---------------------------------------------------------------- two participants

  function Beginning(a: Address, b: Address): Net {
    Net([Start(a), Start(b)], {CREDENTIALS, JOIN, Input(SPENT)})
  }

  lemma MailboxOf(net: Net, a: Address, b: Address)
    requires |net.nodes| == 2 && net.outsiders == {CREDENTIALS, JOIN, Input(SPENT)}
    requires net.nodes[0].inner.outbox == [Join(Some(1)), Output(a)]
    requires net.nodes[1].inner.outbox == [Join(Some(1)), Output(b)]
    ensures AddressesIn(Mailbox(net)) == {a, b} && InputsIn(Mailbox(net)) == {SPENT}
  {
    assert Output(a) in Mailbox(net) by {
      PostedByNode(net, 0, Output(a));
    }
    assert Output(b) in Mailbox(net) by {
      PostedByNode(net, 1, Output(b));
    }
    forall m | m in Mailbox(net)
      ensures m in {CREDENTIALS, JOIN, Input(SPENT), Join(Some(1)), Output(a), Output(b)}
    {
      if m !in net.outsiders {
        var k :| 0 <= k < |net.nodes| && m in net.nodes[k].inner.outbox;
      }
    }
    assert a in AddressesIn(Mailbox(net)) by {
      assert Output(a).Output? && Output(a).address == a;
    }
    assert b in AddressesIn(Mailbox(net)) by {
      assert Output(b).Output? && Output(b).address == b;
    }
    assert Offer(Input(SPENT)) == Some(SPENT) && Input(SPENT) in Mailbox(net);
  }

  /** The bound on the addresses is tight: two addresses in a pool for one peer, everything else within
      bounds, and two participants finish with different transactions. */
  lemma OneAddressTooMany(a: Address, b: Address)
    returns (signers: seq<Option<Wallet>>, net: Net, events: seq<Event>)
    requires a.script != b.script
    ensures |signers| == |net.nodes| == 2 && Started(net, PAYLOAD) && PossibleRun(signers, net, events)
    ensures var end := NetRun(signers, net, events);
            && |AddressesIn(Mailbox(end))| == PAYLOAD.peers + 1
            && |OutPointsIn(Mailbox(end))| <= PAYLOAD.peers && InputsIn(Mailbox(end)) == {SPENT}
            && end.nodes[0].pc.Finished? && end.nodes[1].pc.Finished?
            && end.nodes[0].inner.finalTx != end.nodes[1].inner.finalTx
  {
    signers := [None, None];
    net := Beginning(a, b);
    events := StepsOf(0, FirstTicks() + LastTicks()) + StepsOf(1, FirstTicks() + LastTicks());
    BothStart(a, b);
    BothWalk(a, b);
    Finishes(a);
    Finishes(b);
    BothFinish(Net([EndOf(a), EndOf(b)], net.outsiders), a, b);
  }

  lemma BothStart(a: Address, b: Address)
    ensures Started(Beginning(a, b), PAYLOAD)
  {
    StartsInPool(a);
    StartsInPool(b);
  }

  lemma BothWalk(a: Address, b: Address)
    ensures var net := Beginning(a, b);
            var ticks := FirstTicks() + LastTicks();
            && PossibleRun([None, None], net, StepsOf(0, ticks) + StepsOf(1, ticks))
            && NetRun([None, None], net, StepsOf(0, ticks) + StepsOf(1, ticks))
               == Net([EndOf(a), EndOf(b)], net.outsiders)
  {
    var net := Beginning(a, b);
    WalkBoth(net, FirstTicks() + LastTicks(), EndOf(a), EndOf(b));
  }

  lemma WalkBoth(net: Net, ticks: seq<Tick>, endA: State, endB: State)
    requires |net.nodes| == 2 && forall i :: 0 <= i < |ticks| ==> Heard(ticks[i], net.outsiders)
    requires endA == Walk(None, net.nodes[0], ticks) && endB == Walk(None, net.nodes[1], ticks)
    ensures var signers: seq<Option<Wallet>> := [None, None];
            && PossibleRun(signers, net, StepsOf(0, ticks) + StepsOf(1, ticks))
            && NetRun(signers, net, StepsOf(0, ticks) + StepsOf(1, ticks)) == Net([endA, endB], net.outsiders)
  {
    var signers: seq<Option<Wallet>> := [None, None];
    WalkInNetwork(signers, net, 0, ticks);
    var middle := net.(nodes := net.nodes[0 := endA]);
    WalkInNetwork(signers, middle, 1, ticks);
    RunsConcatenate(signers, net, StepsOf(0, ticks), StepsOf(1, ticks));
    assert middle.nodes[1 := endB] == [endA, endB];
  }

  lemma BothFinish(end: Net, a: Address, b: Address)
    requires |end.nodes| == 2 && end.outsiders == {CREDENTIALS, JOIN, Input(SPENT)} && a.script != b.script
    requires Sound(end.nodes[0]) && end.nodes[0].pc.Finished? && end.nodes[0].inner.pool == Some(POOL)
    requires Sound(end.nodes[1]) && end.nodes[1].pc.Finished? && end.nodes[1].inner.pool == Some(POOL)
    requires end.nodes[0].inner.outbox == [Join(Some(1)), Output(a)] && end.nodes[0].inner.output == Some(a)
    requires end.nodes[1].inner.outbox == [Join(Some(1)), Output(b)] && end.nodes[1].inner.output == Some(b)
    ensures |AddressesIn(Mailbox(end))| == 2 && |OutPointsIn(Mailbox(end))| <= 1 && InputsIn(Mailbox(end)) == {SPENT}
    ensures end.nodes[0].inner.finalTx != end.nodes[1].inner.finalTx
  {
    PaysAlone(end.nodes[0], a);
    PaysAlone(end.nodes[1], b);
    MailboxOf(end, a, b);
    OneOutPoint(end);
    assert a != b;
  }

  lemma OneOutPoint(net: Net)
    requires InputsIn(Mailbox(net)) == {SPENT}
    ensures |OutPointsIn(Mailbox(net))| <= 1
  {
    assert OutPointsIn(Mailbox(net)) == {OutPointOf(SPENT)};
  }

  lemma StartsInPool(a: Address)
    ensures InPool(Start(a), PAYLOAD) && HasBegun(Start(a))
  {
    Begins(a);
    assert BegunFrom(Start(a), NewPeer(a), Some(POOL), "", Idle());
  }
}
