/** One coinjoin participant as a step machine. A step is one pass through one of the source's
    loops, or one of the single actions between the loops; it reads the clock once, and polls the
    message queue at most once. */
module JoinstrSpec {
  import opened Bitcoin
  import opened Nostr
  import opened CoinJoinSpec
  import opened Signer

  datatype Role = UnknownRole | Initiator | Peer

  datatype Phase =
    | Unconfigured | Configured | Posting | Connecting | OutputRegistration
    | InputRegistration | Broadcast | Mined | FailedPhase

  /** The fields behind the mutex. `outbox` lists what this node has sent to the pool. */
  datatype Inner = Inner(
    role: Role, phase: Phase, pool: Option<Pool>,
    denomination: Option<Amount>, peersCount: Option<nat>, timeout: Option<Timeline>,
    hasRelay: bool, fee: Option<Fee>, network: Network,
    coinjoin: Option<Builder>, hasBackend: bool,
    input: Option<Coin>, output: Option<Address>, finalTx: Option<Transaction>,
    peers: seq<Npub>, outputs: seq<Address>, inputs: seq<InputDataSigned>,
    npub: Npub, key: SecretKey, outbox: seq<PoolMessage>)

  datatype NodeError =
    | WrongRole | PoolAlreadyExists | PoolNotExists | PoolPayloadMissing | ParamMissing | Relay
    | PoolConnectionTimeout | NotYetImplemented | TimedOut | TooFewPeers(have: nat, want: nat)
    | PeerCountNotMatch(outputs: nat, peers: nat) | TimelineDuration | CoinjoinMissing
    | CoinjoinError(error: Error) | SignerMissing | SigningFail(sign: SignError) | UnsignedTxNotExists
    | PsbtToInput | MissingFinalTx | BroadcastFail

  datatype Reason =
    | JoinWithoutKey | InputDuringOutputRound | AmountOverflow | DeadlineOverflow | SignerPanic

  /** Where the run stands, with the local variables of the method it is in. */
  datatype Pc =
    | Joining(until: u64)
    | DummyJoin(until: u64, early: bool, cj: Builder)
    | PeerRound(until: u64, early: bool, seen: set<Npub>, cj: Builder)
    | OwnOutput(seen: set<Npub>, cj: Builder)
    | OutputRound(until: u64, seen: set<Npub>, cj: Builder)
    | OutputCheck(until: u64, seen: set<Npub>, cj: Builder)
    | SignRound
    | InputDeadline
    | InputStart(until: u64)
    | InputRound(until: u64)
    | InputCheck(until: u64)
    | Broadcasting
    | Finished
    | Failed(error: NodeError)
    | Aborted(reason: Reason)

  datatype State = State(inner: Inner, pc: Pc)

  /** What a poll may return. */
  datatype Recv = NoMessage | BadEvent | Message(sender: Npub, message: PoolMessage)

  /** One step's worth of environment: the clock, what a poll would return now, whether a send or a
      broadcast made now succeeds, and a fresh key. */
  datatype Tick = Tick(now: u64, recv: Recv, sendOk: bool, freshKey: Npub)

  // ---------------------------------------------------------------- timelines

  datatype Window = Window(until: u64, early: bool)

  function StartTimeline(p: PoolPayload): Window {
    match p.timeout
    case Simple(t) => Window(t, true)
    case Fixed(start, _) => Window(start, false)
    case Timeout(t, _) => Window(t, true)
  }

  function CheckedAdd(a: u64, b: u64): Option<u64> {
    if a + b < U64_LIMIT then Some(a + b) else None
  }

  function EndTimeline(p: PoolPayload): Option<u64> {
    match p.timeout
    case Simple(t) => Some(t)
    case Fixed(start, duration) => CheckedAdd(start, duration)
    case Timeout(t, duration) => CheckedAdd(t, duration)
  }

  /** The deadline of the input round; `None` is an overflow of the unchecked addition. */
  function InputTimeline(p: PoolPayload, now: u64): Option<u64> {
    match p.timeout
    case Simple(t) => Some(t)
    case Fixed(start, duration) => CheckedAdd(start, duration)
    case Timeout(_, duration) => CheckedAdd(now, duration)
  }

  // ---------------------------------------------------------------- helpers

  predicate HasPayload(n: Inner) {
    n.pool.Some? && n.pool.value.payload.Some?
  }

  function Payload(n: Inner): PoolPayload
    requires HasPayload(n)
  {
    n.pool.value.payload.value
  }

  function Fail(n: Inner, e: NodeError): State {
    State(n, Failed(e))
  }

  function Send(n: Inner, m: PoolMessage): Inner {
    n.(outbox := n.outbox + [m])
  }

  /** A Join without a key is answered to its sender. */
  function Received(t: Tick): Option<PoolMessage> {
    match t.recv
    case Message(sender, Join(None)) => Some(Join(Some(sender)))
    case Message(_, m) => Some(m)
    case _ => None
  }

  // ---------------------------------------------------------------- beginning

  predicate IsReady(n: Inner) {
    n.pool.None? && n.denomination.Some? && n.peersCount.Some? && n.timeout.Some? && n.hasRelay && n.fee.Some?
  }

  function NewPool(n: Inner, id: string): Pool
    requires IsReady(n)
  {
    Pool(id, n.npub, n.network,
         Some(PoolPayload(n.denomination.value, n.peersCount.value, n.timeout.value, n.fee.value)))
  }

  /** The opening of `start_coinjoin_blocking`: join the given pool, or post a new one. */
  function Begin(n: Inner, pool: Option<Pool>, id: string, t: Tick): State {
    if n.role.UnknownRole? then Fail(n, WrongRole)
    else if pool.Some? then
      if n.pool.Some? then Fail(n, PoolAlreadyExists)
      else JoinPool(n.(pool := pool), t)
    else Post(n, id, t)
  }

  function JoinPool(n: Inner, t: Tick): State {
    if !HasPayload(n) then Fail(n, PoolNotExists)
    else
      var n1 := n.(phase := Connecting);
      if !t.sendOk then Fail(n1, Relay)
      else State(Send(n1, Join(Some(n.npub))), Joining(StartTimeline(Payload(n)).until))
  }

  function Post(n: Inner, id: string, t: Tick): State {
    if !IsReady(n) then Fail(n, ParamMissing)
    else
      var n1 := n.(phase := Posting);
      if !t.sendOk then Fail(n1, Relay)
      else EnterOutputs(n1.(pool := Some(NewPool(n, id)), phase := OutputRegistration))
  }

  /** The opening of `register_outputs`. */
  function EnterOutputs(n: Inner): State {
    if !HasPayload(n) then Fail(n, PoolNotExists)
    else match Payload(n).fee
      case Provider => Fail(n, NotYetImplemented)
      case FixedFee(rate) =>
        var w := StartTimeline(Payload(n));
        var cj := New(Payload(n).peers, Payload(n).denomination, rate);
        State(n, if n.role.Initiator? then DummyJoin(w.until, w.early, cj) else PeerRound(w.until, w.early, {}, cj))
  }

  // ---------------------------------------------------------------- steps

  function StepJoining(n: Inner, until: u64, t: Tick): State
    requires HasPayload(n)
  {
    if t.now >= until then Fail(n, PoolConnectionTimeout)
    else if t.recv.BadEvent? then Fail(n, Relay)
    else match Received(t)
      case Some(CredentialsMessage(cred)) =>
        if cred.id == n.pool.value.id then EnterOutputs(n.(key := cred.key, phase := OutputRegistration))
        else State(n, Joining(until))
      case _ => State(n, Joining(until))
  }

  function StepDummyJoin(n: Inner, until: u64, early: bool, cj: Builder, t: Tick): State {
    if !t.sendOk then Fail(n, Relay)
    else State(Send(n, Join(Some(t.freshKey))), PeerRound(until, early, {}, cj))
  }

  function StepPeerRound(n: Inner, until: u64, early: bool, seen: set<Npub>, cj: Builder, t: Tick): State
    requires HasPayload(n)
  {
    if t.now >= until || (early && |seen| >= Payload(n).peers) then State(n, OwnOutput(seen, cj))
    else match Received(t)
      case Some(Join(Some(npub))) =>
        if npub in seen then State(n, PeerRound(until, early, seen, cj))
        else if n.role.Initiator? && !t.sendOk then Fail(n, Relay)
        else
          var n1 := if n.role.Initiator? then Send(n, CredentialsMessage(Credentials(n.pool.value.id, n.key))) else n;
          State(n1.(peers := n1.peers + [npub]), PeerRound(until, early, seen + {npub}, cj))
      case Some(Join(None)) => State(n, Aborted(JoinWithoutKey))
      case _ => State(n, PeerRound(until, early, seen, cj))
  }

  function StepOwnOutput(n: Inner, seen: set<Npub>, cj: Builder, t: Tick): State
    requires HasPayload(n)
  {
    if n.output.Some? && !t.sendOk then Fail(n, Relay)
    else
      var n1 := if n.output.Some? then Send(n, Output(n.output.value)).(outputs := n.outputs + [n.output.value]) else n;
      var cj1 := if n.output.Some? then AddOutput(cj, n.output.value) else cj;
      match EndTimeline(Payload(n))
      case None => Fail(n1, TimelineDuration)
      case Some(until) => State(n1, OutputRound(until, seen, cj1))
  }

  function StepOutputRound(n: Inner, until: u64, seen: set<Npub>, cj: Builder, t: Tick): State
    requires HasPayload(n)
  {
    if t.now >= until || |cj.outputs| >= |seen| then State(n, OutputCheck(until, seen, cj))
    else match Received(t)
      case Some(Output(a)) =>
        var cj1 := if a.ValidForNetwork(n.pool.value.network) then AddOutput(cj, a) else cj;
        State(n.(outputs := n.outputs + [a]), OutputRound(until, seen, cj1))
      case Some(Input(_)) => State(n, Aborted(InputDuringOutputRound))
      case _ => State(n, OutputRound(until, seen, cj))
  }

  function StepOutputCheck(n: Inner, until: u64, seen: set<Npub>, cj: Builder, t: Tick): State
    requires HasPayload(n)
  {
    if t.now > until then Fail(n, TimedOut)
    else if |seen| < Payload(n).peers then Fail(n, TooFewPeers(|seen|, Payload(n).peers))
    else if |cj.outputs| != |seen| then Fail(n, PeerCountNotMatch(|cj.outputs|, |seen|))
    else State(n.(coinjoin := Some(cj)), SignRound)
  }

  /** Freeze the template, then sign and send the node's own input if it has one. */
  function StepSignRound(n: Inner, signer: Option<Wallet>, t: Tick): State {
    if n.coinjoin.None? then Fail(n, CoinjoinMissing)
    else
      var (b, r) := GeneratePsbt(n.coinjoin.value);
      var n1 := n.(coinjoin := Some(b));
      match r
      case Err(e) => Fail(n1, CoinjoinError(e))
      case Abort => State(n1, Aborted(AmountOverflow))
      case Ok(_) =>
        if n1.input.None? then State(n1, InputDeadline)
        else if signer.None? then Fail(n1, SignerMissing)
        else SendOwnInput(n1, signer.value, t)
  }

  function SendOwnInput(n: Inner, w: Wallet, t: Tick): State
    requires n.coinjoin.Some? && n.input.Some?
  {
    if n.coinjoin.value.psbt.None? then Fail(n, UnsignedTxNotExists)
    else AfterSigning(n, Sign(w, n.coinjoin.value.psbt.value, n.input.value), t)
  }

  function AfterSigning(n: Inner, result: SignResult, t: Tick): State {
    var n1 := n.(input := None);
    match result
    case SignAbort => State(n1, Aborted(SignerPanic))
    case SignFailed(e) => Fail(n1, SigningFail(e))
    case Signed(i) =>
      if !HasPayload(n) then Fail(n1, PoolNotExists)
      else if !t.sendOk then Fail(n1, Relay)
      else State(Send(n1, Input(i)).(inputs := n1.inputs + [i]), InputDeadline)
  }

  function StepInputDeadline(n: Inner, t: Tick): State {
    if !HasPayload(n) then Fail(n, PoolNotExists)
    else if n.coinjoin.None? then Fail(n, CoinjoinMissing)
    else match InputTimeline(Payload(n), t.now)
      case None => State(n, Aborted(DeadlineOverflow))
      case Some(until) => State(n, InputStart(until))
  }

  function StepInputStart(n: Inner, until: u64, t: Tick): State {
    if t.now > until then Fail(n, TimedOut) else State(n, InputRound(until))
  }

  function StepInputRound(n: Inner, until: u64, t: Tick): State {
    if t.now >= until then State(n, InputCheck(until))
    else if n.coinjoin.None? then Fail(n, CoinjoinMissing)
    else if n.coinjoin.value.tx.Some? then State(n, InputCheck(until))
    else match Received(t)
      case Some(PsbtMessage(p)) =>
        (match FromPsbt(p)
         case PsbtErr(_) => Fail(n, PsbtToInput)
         case PsbtOk(i) => RegisterAndFinalize(n, until, i))
      case Some(Input(i)) => RegisterAndFinalize(n, until, i)
      case _ => State(n, InputRound(until))
  }

  /** `try_register_input`: a refused input is dropped without an error. */
  function TryRegister(n: Inner, i: InputDataSigned): Inner
    requires n.coinjoin.Some?
  {
    var (b, r) := AddInput(n.coinjoin.value, i);
    if r.Ok? then n.(coinjoin := Some(b), inputs := n.inputs + [i]) else n
  }

  /** `try_finalize_coinjoin`: a refused finalization is retried after the next input. */
  function TryFinalize(n: Inner, until: u64): State
    requires n.coinjoin.Some?
  {
    var b := n.coinjoin.value;
    if |b.inputs| < |b.outputs| then State(n, InputRound(until))
    else
      var (b1, r) := FinalizeClaimed(b);
      var n1 := n.(coinjoin := Some(b1));
      match r
      case Ok(_) => State(n1, InputCheck(until))
      case Err(_) => State(n1, InputRound(until))
      case Abort => State(n1, Aborted(AmountOverflow))
  }

  function RegisterAndFinalize(n: Inner, until: u64, i: InputDataSigned): State
    requires n.coinjoin.Some?
  {
    TryFinalize(TryRegister(n, i), until)
  }

  function StepInputCheck(n: Inner, until: u64, t: Tick): State {
    if t.now > until then Fail(n, TimedOut) else State(n, Broadcasting)
  }

  function StepBroadcasting(n: Inner, t: Tick): State {
    if !HasPayload(n) then Fail(n, PoolNotExists)
    else if n.coinjoin.None? then Fail(n, CoinjoinMissing)
    else if n.coinjoin.value.tx.None? then Fail(n, MissingFinalTx)
    else if n.hasBackend && !t.sendOk then Fail(n, BroadcastFail)
    else State(n.(finalTx := n.coinjoin.value.tx, phase := Broadcast), Finished)
  }

  /** A step of `join_pool` or of the peer round. */
  function StepGathering(s: State, t: Tick): State {
    var n := s.inner;
    if !HasPayload(n) then Fail(n, PoolNotExists)
    else match s.pc
      case Joining(until) => StepJoining(n, until, t)
      case DummyJoin(until, early, cj) => StepDummyJoin(n, until, early, cj, t)
      case PeerRound(until, early, seen, cj) => StepPeerRound(n, until, early, seen, cj, t)
      case _ => s
  }

  /** A step of the output round. */
  function StepOutputs(s: State, t: Tick): State {
    var n := s.inner;
    if !HasPayload(n) then Fail(n, PoolNotExists)
    else match s.pc
      case OwnOutput(seen, cj) => StepOwnOutput(n, seen, cj, t)
      case OutputRound(until, seen, cj) => StepOutputRound(n, until, seen, cj, t)
      case OutputCheck(until, seen, cj) => StepOutputCheck(n, until, seen, cj, t)
      case _ => s
  }

  /** A step of signing, of the input round or of the broadcast. */
  function StepInputs(signer: Option<Wallet>, s: State, t: Tick): State {
    var n := s.inner;
    match s.pc
    case SignRound => StepSignRound(n, signer, t)
    case InputDeadline => StepInputDeadline(n, t)
    case InputStart(until) => StepInputStart(n, until, t)
    case InputRound(until) => StepInputRound(n, until, t)
    case InputCheck(until) => StepInputCheck(n, until, t)
    case Broadcasting => StepBroadcasting(n, t)
    case _ => s
  }

  function Step(signer: Option<Wallet>, s: State, t: Tick): State {
    match s.pc
    case Joining(_) => StepGathering(s, t)
    case DummyJoin(_, _, _) => StepGathering(s, t)
    case PeerRound(_, _, _, _) => StepGathering(s, t)
    case OwnOutput(_, _) => StepOutputs(s, t)
    case OutputRound(_, _, _) => StepOutputs(s, t)
    case OutputCheck(_, _, _) => StepOutputs(s, t)
    case _ => StepInputs(signer, s, t)
  }

  /** Whether the step takes a message off the queue, if there is one. */
  predicate Polls(s: State, t: Tick) {
    var n := s.inner;
    match s.pc
    case Joining(until) => HasPayload(n) && t.now < until
    case PeerRound(until, early, seen, _) =>
      HasPayload(n) && t.now < until && !(early && |seen| >= Payload(n).peers)
    case OutputRound(until, seen, cj) => HasPayload(n) && t.now < until && |cj.outputs| < |seen|
    case InputRound(until) => t.now < until && n.coinjoin.Some? && n.coinjoin.value.tx.None?
    case _ => false
  }

  function Stepper(signer: Option<Wallet>): (State, Tick) -> State {
    (s: State, t: Tick) => Step(signer, s, t)
  }

  /** The state after the ticks `lo <= k < hi`. */
  function Run(step: (State, Tick) -> State, s: State, ticks: nat -> Tick, lo: nat, hi: nat): State
    requires lo <= hi
    decreases hi
  {
    if lo == hi then s else step(Run(step, s, ticks, lo, hi - 1), ticks(hi - 1))
  }
}
