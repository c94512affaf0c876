/** Any number of participants around one pool mailbox, which may reorder, repeat and lose
    messages and holds whatever outsiders post. */
module PoolNetwork {
  import opened Permutations
  import opened Bitcoin
  import opened Nostr
  import opened CoinJoinSpec
  import opened CoinJoinLaws
  import opened Signer
  import opened JoinstrSpec
  import opened JoinstrLaws

  datatype Net = Net(nodes: seq<State>, outsiders: set<PoolMessage>)

  /** Everything ever posted. */
  function Mailbox(net: Net): set<PoolMessage> {
    net.outsiders + set k, m | 0 <= k < |net.nodes| && m in net.nodes[k].inner.outbox :: m
  }

  /** One participant takes a step, or an outsider posts a message. A poll returns any posted
      message, no matter how often it was delivered before, or none. */
  datatype Event = NodeStep(k: nat, tick: Tick) | OutsiderPost(message: PoolMessage)

  ghost predicate Possible(net: Net, e: Event) {
    e.NodeStep? ==> e.k < |net.nodes| && Heard(e.tick, Mailbox(net))
  }

  function NetStep(signers: seq<Option<Wallet>>, net: Net, e: Event): Net
    requires |signers| == |net.nodes|
    requires e.NodeStep? ==> e.k < |net.nodes|
  {
    match e
    case NodeStep(k, tick) => net.(nodes := net.nodes[k := Step(signers[k], net.nodes[k], tick)])
    case OutsiderPost(m) => net.(outsiders := net.outsiders + {m})
  }

  ghost predicate PossibleRun(signers: seq<Option<Wallet>>, net: Net, events: seq<Event>)
    requires |signers| == |net.nodes|
    decreases events
  {
    events == [] || (Possible(net, events[0]) && PossibleRun(signers, NetStep(signers, net, events[0]), events[1..]))
  }

  function NetRun(signers: seq<Option<Wallet>>, net: Net, events: seq<Event>): (end: Net)
    requires |signers| == |net.nodes| && PossibleRun(signers, net, events)
    ensures |end.nodes| == |net.nodes|
    decreases events
  {
    if events == [] then net else NetRun(signers, NetStep(signers, net, events[0]), events[1..])
  }

  // ---------------------------------------------------------------- the network invariant

  /** Participant `s` is about to run, or already runs, the pool with this payload. */
  ghost predicate InPool(s: State, p: PoolPayload) {
    HasPayload(s.inner) ==> Payload(s.inner) == p
  }

  ghost predicate NodeOk(signer: Option<Wallet>, s: State, p: PoolPayload, ms: set<PoolMessage>) {
    Sound(s) && Sourced(s, ms) && SignedOwn(signer, s.inner) && InPool(s, p)
  }

  ghost predicate NetOk(signers: seq<Option<Wallet>>, net: Net, p: PoolPayload) {
    && |signers| == |net.nodes|
    && forall k :: 0 <= k < |net.nodes| ==> NodeOk(signers[k], net.nodes[k], p, Mailbox(net))
  }

  ghost predicate BegunFrom(s: State, n: Inner, pool: Option<Pool>, id: string, t: Tick) {
    Fresh(n) && s == Begin(n, pool, id, t)
  }

  /** Every participant begins afresh, in one and the same pool. */
  ghost predicate Started(net: Net, p: PoolPayload) {
    forall k :: 0 <= k < |net.nodes| ==>
      InPool(net.nodes[k], p) && HasBegun(net.nodes[k])
  }

  ghost predicate HasBegun(s: State) {
    exists n, pool, id, t :: BegunFrom(s, n, pool, id, t)
  }

  lemma BegunOk(signer: Option<Wallet>, s: State, p: PoolPayload, ms: set<PoolMessage>)
    requires InPool(s, p) && HasBegun(s)
    ensures NodeOk(signer, s, p, ms)
  {
    var n, pool, id, t :| BegunFrom(s, n, pool, id, t);
    BeginSound(n, pool, id, t);
    BeginSourced(n, pool, id, t, ms);
    BeginSendsNoInput(signer, n, pool, id, t);
  }

  lemma BeginSendsNoInput(signer: Option<Wallet>, n: Inner, pool: Option<Pool>, id: string, t: Tick)
    requires Fresh(n)
    ensures SignedOwn(signer, Begin(n, pool, id, t).inner)
  {
    assert forall x :: Input(x) !in Begin(n, pool, id, t).inner.outbox;
  }

  lemma StartedOk(signers: seq<Option<Wallet>>, net: Net, p: PoolPayload)
    requires |signers| == |net.nodes| && Started(net, p)
    ensures NetOk(signers, net, p)
  {
    forall k | 0 <= k < |net.nodes|
      ensures NodeOk(signers[k], net.nodes[k], p, Mailbox(net))
    {
      BegunOk(signers[k], net.nodes[k], p, Mailbox(net));
    }
  }

  lemma PostedByNode(net: Net, k: nat, m: PoolMessage)
    requires k < |net.nodes| && m in net.nodes[k].inner.outbox
    ensures m in Mailbox(net)
  {}

  lemma MailboxGrows(signers: seq<Option<Wallet>>, net: Net, p: PoolPayload, e: Event)
    requires NetOk(signers, net, p) && Possible(net, e)
    ensures Mailbox(net) <= Mailbox(NetStep(signers, net, e))
  {
    var net' := NetStep(signers, net, e);
    if e.NodeStep? {
      StepSigned(signers[e.k], net.nodes[e.k], e.tick);
      forall m | m in Mailbox(net)
        ensures m in Mailbox(net')
      {
        if m !in net.outsiders {
          var j :| 0 <= j < |net.nodes| && m in net.nodes[j].inner.outbox;
          assert m in net'.nodes[j].inner.outbox;
          PostedByNode(net', j, m);
        }
      }
    }
  }

  lemma NodeStepOk(signer: Option<Wallet>, s: State, t: Tick, p: PoolPayload, ms: set<PoolMessage>,
      more: set<PoolMessage>)
    requires NodeOk(signer, s, p, ms) && Heard(t, ms) && ms <= more
    ensures NodeOk(signer, Step(signer, s, t), p, more)
  {
    var s' := Step(signer, s, t);
    StepSound(signer, s, t);
    StepSourced(signer, s, t, ms);
    SourcedMonotone(s', ms, more);
    StepSigned(signer, s, t);
    assert InPool(s', p);
  }

  /** Every possible event keeps the network invariant. */
  lemma NetStepOk(signers: seq<Option<Wallet>>, net: Net, p: PoolPayload, e: Event)
    requires NetOk(signers, net, p) && Possible(net, e)
    ensures NetOk(signers, NetStep(signers, net, e), p)
  {
    var net' := NetStep(signers, net, e);
    MailboxGrows(signers, net, p, e);
    forall j | 0 <= j < |net'.nodes|
      ensures NodeOk(signers[j], net'.nodes[j], p, Mailbox(net'))
    {
      if e.NodeStep? && e.k == j {
        NodeStepOk(signers[j], net.nodes[j], e.tick, p, Mailbox(net), Mailbox(net'));
      } else {
        SourcedMonotone(net.nodes[j], Mailbox(net), Mailbox(net'));
      }
    }
  }

  lemma {:induction false} NetRunOk(signers: seq<Option<Wallet>>, net: Net, p: PoolPayload, events: seq<Event>)
    requires NetOk(signers, net, p) && PossibleRun(signers, net, events)
    ensures NetOk(signers, NetRun(signers, net, events), p)
    decreases events
  {
    if events != [] {
      NetStepOk(signers, net, p, events[0]);
      NetRunOk(signers, NetStep(signers, net, events[0]), p, events[1..]);
    }
  }

  // ---------------------------------------------------------------- agreement

  /** At most `peers` addresses and `peers` outpoints were ever posted, each outpoint with one
      signed input. */
  ghost predicate Uncrowded(ms: set<PoolMessage>, peers: nat) {
    && |AddressesIn(ms)| <= peers
    && |OutPointsIn(ms)| <= peers
    && (forall x, y :: x in InputsIn(ms) && y in InputsIn(ms) && OutPointOf(x) == OutPointOf(y) ==> x == y)
  }

  function OutPointsIn(ms: set<PoolMessage>): set<OutPoint> {
    set i | i in InputsIn(ms) :: OutPointOf(i)
  }

  /** First pigeonhole: a frozen template covers every address ever posted. */
  lemma TemplateCoversAll(n: Inner, b: Builder, ms: set<PoolMessage>, p: PoolPayload)
    requires Templated(b, n) && Payload(n) == p && |AddressesIn(ms)| <= p.peers
    requires forall a :: a in b.outputs ==> a in AddressesIn(ms)
    ensures Elements(b.outputs) == AddressesIn(ms)
  {
    Pigeonhole(b.outputs, AddressesIn(ms));
  }

  /** Second pigeonhole: a completed transaction spends every input ever posted. */
  lemma InputsCoverAll(b: Builder, ms: set<PoolMessage>, p: PoolPayload)
    requires DistinctOutPoints(b.inputs) && |b.inputs| >= p.peers && InputsSourced(b, ms)
    requires Uncrowded(ms, p.peers)
    ensures Elements(b.inputs) == InputsIn(ms)
  {
    forall o | o in OutPoints(b.inputs)
      ensures o in OutPointsIn(ms)
    {
      var k :| 0 <= k < |b.inputs| && OutPoints(b.inputs)[k] == o;
      assert b.inputs[k] in InputsIn(ms);
    }
    Pigeonhole(OutPoints(b.inputs), OutPointsIn(ms));
    forall i | i in InputsIn(ms)
      ensures i in b.inputs
    {
      assert OutPointOf(i) in Elements(OutPoints(b.inputs));
      var k :| 0 <= k < |b.inputs| && OutPoints(b.inputs)[k] == OutPointOf(i);
      assert b.inputs[k] in InputsIn(ms);
    }
  }

  lemma OwnPosted(net: Net, k: nat, b: Builder)
    requires k < |net.nodes| && OutputsSourced(b, net.nodes[k].inner, Mailbox(net))
    ensures forall a :: a in b.outputs ==> a in AddressesIn(Mailbox(net))
  {
    forall a | a in b.outputs
      ensures a in AddressesIn(Mailbox(net))
    {
      if Output(a) in net.nodes[k].inner.outbox {
        PostedByNode(net, k, Output(a));
        assert Output(a).Output? && Output(a).address == a;
      }
    }
  }

  /** Whoever has frozen a template has frozen the same one. */
  lemma SameTemplate(signers: seq<Option<Wallet>>, net: Net, p: PoolPayload, j: nat, k: nat)
    requires NetOk(signers, net, p) && |AddressesIn(Mailbox(net))| <= p.peers
    requires j < |net.nodes| && k < |net.nodes|
    requires PsbtOf(net.nodes[j].inner).Some? && PsbtOf(net.nodes[k].inner).Some?
    requires Current(net.nodes[j]) == net.nodes[j].inner.coinjoin
              && Current(net.nodes[k]) == net.nodes[k].inner.coinjoin
    ensures PsbtOf(net.nodes[j].inner) == PsbtOf(net.nodes[k].inner)
  {
    var bj, bk := net.nodes[j].inner.coinjoin.value, net.nodes[k].inner.coinjoin.value;
    OwnPosted(net, j, bj);
    OwnPosted(net, k, bk);
    TemplateCoversAll(net.nodes[j].inner, bj, Mailbox(net), p);
    TemplateCoversAll(net.nodes[k].inner, bk, Mailbox(net), p);
    OutputConfluence(bj.outputs, bk.outputs, p.denomination);
  }

  lemma SameElementsDistinctOutPoints(a: seq<InputDataSigned>, b: seq<InputDataSigned>)
    requires DistinctOutPoints(a) && DistinctOutPoints(b) && Elements(a) == Elements(b)
    ensures multiset(a) == multiset(b)
  {
    SameElementsPermutation(a, b);
  }

  /** Inputs strictly increasing by outpoint are determined by their set. */
  lemma IncreasingUnique(a: seq<InputDataSigned>, b: seq<InputDataSigned>)
    requires StrictlyIncreasing(Map(TxinOf, a)) && StrictlyIncreasing(Map(TxinOf, b))
    requires Elements(a) == Elements(b)
    ensures a == b
  {
    IncreasingSorted(a);
    IncreasingSorted(b);
    SameElementsDistinctOutPoints(a, b);
    InputOrderSeparates(a);
    SortedUnique(InputLe, a, b);
  }

  lemma IncreasingSorted(a: seq<InputDataSigned>)
    requires StrictlyIncreasing(Map(TxinOf, a))
    ensures SortedBy(InputLe, a) && DistinctOutPoints(a)
  {
    forall i, j | 0 <= i < j < |a|
      ensures OutPointLt(OutPointOf(a[i]), OutPointOf(a[j]))
    {
      assert OutPointLt(Map(TxinOf, a)[i].previousOutput, Map(TxinOf, a)[j].previousOutput);
    }
  }

  lemma FinishedFacts(s: State)
    requires Sound(s) && s.pc.Finished?
    ensures s.inner.coinjoin.Some? && Current(s) == s.inner.coinjoin
    ensures var b := s.inner.coinjoin.value;
            && Templated(b, s.inner) && Complete(b) && s.inner.finalTx == b.tx
            && |b.inputs| >= Payload(s.inner).peers && StrictlyIncreasing(Map(TxinOf, b.inputs))
            && b.tx.value.input == Map(TxinOf, b.inputs) && PsbtOf(s.inner).Some?
  {
    var b := s.inner.coinjoin.value;
    assert b.psbt.value.input == [];
    assert b.tx.value.input == Map(TxinOf, b.inputs);
  }

  /** Agreement: in every run of any number of participants over a mailbox that reorders, repeats
      and loses messages, if no more addresses and inputs are ever posted than the pool has peers,
      all who finish hold the identical transaction. */
  lemma Agreement(signers: seq<Option<Wallet>>, net: Net, p: PoolPayload, events: seq<Event>, j: nat, k: nat)
    requires |signers| == |net.nodes| && Started(net, p) && PossibleRun(signers, net, events)
    requires var end := NetRun(signers, net, events);
             && Uncrowded(Mailbox(end), p.peers)
             && j < |end.nodes| && end.nodes[j].pc.Finished?
             && k < |end.nodes| && end.nodes[k].pc.Finished?
    ensures var end := NetRun(signers, net, events);
            end.nodes[j].inner.finalTx.Some? && end.nodes[j].inner.finalTx == end.nodes[k].inner.finalTx
  {
    StartedOk(signers, net, p);
    NetRunOk(signers, net, p, events);
    AgreementAt(signers, NetRun(signers, net, events), p, j, k);
  }

  lemma AgreementAt(signers: seq<Option<Wallet>>, net: Net, p: PoolPayload, j: nat, k: nat)
    requires NetOk(signers, net, p) && Uncrowded(Mailbox(net), p.peers)
    requires j < |net.nodes| && net.nodes[j].pc.Finished?
    requires k < |net.nodes| && net.nodes[k].pc.Finished?
    ensures net.nodes[j].inner.finalTx.Some? && net.nodes[j].inner.finalTx == net.nodes[k].inner.finalTx
  {
    FinishedFacts(net.nodes[j]);
    FinishedFacts(net.nodes[k]);
    SameTemplate(signers, net, p, j, k);
    var bj, bk := net.nodes[j].inner.coinjoin.value, net.nodes[k].inner.coinjoin.value;
    IncreasingSorted(bj.inputs);
    IncreasingSorted(bk.inputs);
    InputsCoverAll(bj, Mailbox(net), p);
    InputsCoverAll(bk, Mailbox(net), p);
    IncreasingUnique(bj.inputs, bk.inputs);
  }

  /** `tx` spends the coin that `x` names, for the value `x` claims, with a valid signature. */
  ghost predicate Spends(w: Wallet, tx: Transaction, x: InputDataSigned, coin: Coin) {
    && OutPointOf(x) == coin.outpoint && x.amount == Some(coin.txout.value)
    && exists i :: 0 <= i < |tx.input| && tx.input[i] == x.txin && ValidSpend(w.crypto, tx, i, coin.txout)
  }

  /** Every signed input that any participant sent is spent, and validly so, by the transaction of
      every participant who finished, under the same conditions. */
  lemma SentInputsAreSpent(
    signers: seq<Option<Wallet>>, net: Net, p: PoolPayload, events: seq<Event>, j: nat, k: nat, x: InputDataSigned)
    requires |signers| == |net.nodes| && Started(net, p) && PossibleRun(signers, net, events)
    requires var end := NetRun(signers, net, events);
             && Uncrowded(Mailbox(end), p.peers)
             && j < |end.nodes| && end.nodes[j].pc.Finished?
             && k < |end.nodes| && Input(x) in end.nodes[k].inner.outbox
    ensures var tx := NetRun(signers, net, events).nodes[j].inner.finalTx;
            tx.Some? && signers[k].Some? && exists coin :: Spends(signers[k].value, tx.value, x, coin)
  {
    StartedOk(signers, net, p);
    NetRunOk(signers, net, p, events);
    SentInputsAreSpentAt(signers, NetRun(signers, net, events), p, j, k, x);
  }

  lemma SentInputsAreSpentAt(
    signers: seq<Option<Wallet>>, net: Net, p: PoolPayload, j: nat, k: nat, x: InputDataSigned)
    requires NetOk(signers, net, p) && Uncrowded(Mailbox(net), p.peers)
    requires j < |net.nodes| && net.nodes[j].pc.Finished?
    requires k < |net.nodes| && Input(x) in net.nodes[k].inner.outbox
    ensures var tx := net.nodes[j].inner.finalTx;
            tx.Some? && signers[k].Some? && exists coin :: Spends(signers[k].value, tx.value, x, coin)
  {
    FinishedFacts(net.nodes[j]);
    var b, n := net.nodes[j].inner.coinjoin.value, net.nodes[k].inner;
    var coin :| Sign(signers[k].value, PsbtOf(n).value, coin) == Signed(x);
    PastSigning(net.nodes[k]);
    SameTemplate(signers, net, p, j, k);
    IncreasingSorted(b.inputs);
    InputsCoverAll(b, Mailbox(net), p);
    PostedInput(net, k, x);
    assert x in Elements(b.inputs);
    CompleteSpendsSigned(b, signers[k].value, coin, x);
  }

  lemma PostedInput(net: Net, k: nat, x: InputDataSigned)
    requires k < |net.nodes| && Input(x) in net.nodes[k].inner.outbox
    ensures x in InputsIn(Mailbox(net))
  {
    PostedByNode(net, k, Input(x));
    assert Offer(Input(x)) == Some(x);
  }

  lemma CompleteSpendsSigned(b: Builder, w: Wallet, coin: Coin, x: InputDataSigned)
    requires b.psbt.Some? && b.tx == Some(Assemble(b.psbt.value, b.inputs))
    requires Sign(w, b.psbt.value, coin) == Signed(x) && x in b.inputs
    ensures Spends(w, b.tx.value, x, coin)
  {
    var i :| 0 <= i < |b.inputs| && b.inputs[i] == x;
    AssembledSpendValid(w, b.psbt.value, coin, b.inputs, i);
    SignedInputShape(w, b.psbt.value, coin);
    assert b.psbt.value.input == [];
    assert b.tx.value.input == Map(TxinOf, b.inputs);
  }

  /** A frozen template means the local variables of the output round are gone. */
  lemma PastSigning(s: State)
    requires Sound(s) && PsbtOf(s.inner).Some?
    ensures Current(s) == s.inner.coinjoin
  {}
}
