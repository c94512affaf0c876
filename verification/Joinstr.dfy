/** One participant as an object, with the polling loops of the source. Every method is proved to
    follow the step machine of `JoinstrSpec.dfy`, tick by tick. */
module Joinstr {
  import opened Permutations
  import opened Bitcoin
  import opened Nostr
  import Spec = CoinJoinSpec
  import opened CoinJoinLaws
  import opened CoinJoin
  import opened Signer
  import opened JoinstrSpec
  import opened JoinstrLaws
  import opened JoinstrCourse

  /** The clock and the message queue: the `k`-th look at them yields `ticks(k)`. */
  class Environment {
    const ticks: nat -> Tick
    var pos: nat

    constructor (ticks: nat -> Tick)
      ensures this.ticks == ticks && pos == 0
    {
      this.ticks, pos := ticks, 0;
    }

    method Next() returns (t: Tick)
      modifies this`pos
      ensures t == ticks(old(pos)) && pos == old(pos) + 1
    {
      t := ticks(pos);
      pos := pos + 1;
    }
  }

  datatype Progress = Going | Stopped(error: NodeError) | Panicked(reason: Reason)

  function After(r: Progress, pc: Pc): Pc {
    match r
    case Going => pc
    case Stopped(e) => Failed(e)
    case Panicked(reason) => Aborted(reason)
  }

  lemma AdvanceJoining(c: Course, signer: Option<Wallet>, k: nat, n: Inner, until: u64)
    requires c.from <= k && StepsWith(c, signer) && StateAt(c, k) == State(n, Joining(until)) && HasPayload(n)
    ensures StateAt(c, k + 1) == StepJoining(n, until, c.ticks(k))
  {
    Advance(c, signer, k, State(n, Joining(until)));
  }

  lemma AdvanceDummyJoin(c: Course, signer: Option<Wallet>, k: nat, n: Inner, w: Window, cj: Spec.Builder)
    requires c.from <= k && StepsWith(c, signer) && HasPayload(n)
    requires StateAt(c, k) == State(n, DummyJoin(w.until, w.early, cj))
    ensures StateAt(c, k + 1) == StepDummyJoin(n, w.until, w.early, cj, c.ticks(k))
  {
    Advance(c, signer, k, State(n, DummyJoin(w.until, w.early, cj)));
  }

  lemma AdvancePeers(c: Course, signer: Option<Wallet>, k: nat, n: Inner, w: Window, seen: set<Npub>, cj: Spec.Builder)
    requires c.from <= k && StepsWith(c, signer) && HasPayload(n)
    requires StateAt(c, k) == State(n, PeerRound(w.until, w.early, seen, cj))
    ensures StateAt(c, k + 1) == StepPeerRound(n, w.until, w.early, seen, cj, c.ticks(k))
  {
    Advance(c, signer, k, State(n, PeerRound(w.until, w.early, seen, cj)));
  }

  lemma AdvanceOwnOutput(c: Course, signer: Option<Wallet>, k: nat, n: Inner, seen: set<Npub>, cj: Spec.Builder)
    requires c.from <= k && StepsWith(c, signer) && HasPayload(n)
    requires StateAt(c, k) == State(n, OwnOutput(seen, cj))
    ensures StateAt(c, k + 1) == StepOwnOutput(n, seen, cj, c.ticks(k))
  {
    Advance(c, signer, k, State(n, OwnOutput(seen, cj)));
  }

  lemma AdvanceOutputs(c: Course, signer: Option<Wallet>, k: nat, n: Inner, until: u64, seen: set<Npub>,
      cj: Spec.Builder)
    requires c.from <= k && StepsWith(c, signer) && HasPayload(n)
    requires StateAt(c, k) == State(n, OutputRound(until, seen, cj))
    ensures StateAt(c, k + 1) == StepOutputRound(n, until, seen, cj, c.ticks(k))
  {
    Advance(c, signer, k, State(n, OutputRound(until, seen, cj)));
  }

  lemma AdvanceOutputCheck(c: Course, signer: Option<Wallet>, k: nat, n: Inner, until: u64, seen: set<Npub>,
      cj: Spec.Builder)
    requires c.from <= k && StepsWith(c, signer) && HasPayload(n)
    requires StateAt(c, k) == State(n, OutputCheck(until, seen, cj))
    ensures StateAt(c, k + 1) == StepOutputCheck(n, until, seen, cj, c.ticks(k))
  {
    Advance(c, signer, k, State(n, OutputCheck(until, seen, cj)));
  }

  lemma AdvanceInputs(c: Course, signer: Option<Wallet>, k: nat, n: Inner, pc: Pc)
    requires c.from <= k && StepsWith(c, signer) && StateAt(c, k) == State(n, pc)
    ensures pc.SignRound? ==> StateAt(c, k + 1) == StepSignRound(n, signer, c.ticks(k))
    ensures pc.InputDeadline? ==> StateAt(c, k + 1) == StepInputDeadline(n, c.ticks(k))
    ensures pc.InputStart? ==> StateAt(c, k + 1) == StepInputStart(n, pc.until, c.ticks(k))
    ensures pc.InputRound? ==> StateAt(c, k + 1) == StepInputRound(n, pc.until, c.ticks(k))
    ensures pc.InputCheck? ==> StateAt(c, k + 1) == StepInputCheck(n, pc.until, c.ticks(k))
    ensures pc.Broadcasting? ==> StateAt(c, k + 1) == StepBroadcasting(n, c.ticks(k))
  {
    Advance(c, signer, k, State(n, pc));
  }

  class Joinstr {
    var role: Role
    var phase: Phase
    var pool: Option<Pool>
    var denomination: Option<Amount>
    var peersCount: Option<nat>
    var timeout: Option<Timeline>
    var hasRelay: bool
    var fee: Option<Fee>
    var network: Network
    var coinjoin: CoinJoin?
    var hasBackend: bool
    var input: Option<Coin>
    var output: Option<Address>
    var finalTx: Option<Transaction>
    var peers: seq<Npub>
    var outputs: seq<Address>
    var inputs: seq<InputDataSigned>
    var npub: Npub
    var key: SecretKey
    var outbox: seq<PoolMessage>

    function View(): Inner
      reads this, coinjoin
    {
      Inner(role, phase, pool, denomination, peersCount, timeout, hasRelay, fee, network,
            if coinjoin == null then None else Some(coinjoin.View()), hasBackend, input, output, finalTx,
            peers, outputs, inputs, npub, key, outbox)
    }

    /** The builder inside a participant consults no backend. */
    ghost predicate Valid()
      reads this, coinjoin
    {
      coinjoin != null ==> coinjoin.Valid() && coinjoin.client == null
    }

    constructor (role: Role, npub: Npub, key: SecretKey, hasBackend: bool, network: Network,
                 input: Option<Coin>, output: Option<Address>)
      ensures Valid() && Fresh(View())
    {
      this.role, this.npub, this.key, this.hasBackend, this.network := role, npub, key, hasBackend, network;
      this.input, this.output := input, output;
      phase, pool, denomination, peersCount, timeout, hasRelay, fee := Unconfigured, None, None, None, None, true, None;
      coinjoin, finalTx, peers, outputs, inputs, outbox := null, None, [], [], [], [];
    }

    // -------------------------------------------------------------- joining

    method PollCredentials(t: Tick) returns (r: Progress, connected: bool)
      requires HasPayload(View())
      modifies this`key, this`phase
      ensures r.Panicked? ==> false
      ensures t.recv.BadEvent? <==> r == Stopped(Relay)
      ensures r.Stopped? ==> r == Stopped(Relay) && !connected
      ensures !connected ==> View() == old(View())
      ensures connected <==> exists cred :: Received(t) == Some(CredentialsMessage(cred)) && cred.id == pool.value.id
      ensures connected ==>
                View() == old(View()).(key := Received(t).value.credentials.key, phase := OutputRegistration)
    {
      connected := false;
      if t.recv.BadEvent? {
        return Stopped(Relay), false;
      }
      match Received(t) {
        case Some(CredentialsMessage(cred)) =>
          if cred.id == pool.value.id {
            key, phase, connected := cred.key, OutputRegistration, true;
          }
        case _ =>
      }
      r := Going;
    }

    // -------------------------------------------------------------- the peer round

    method PollPeers(t: Tick, w: Window, seen: set<Npub>, ghost cj: Spec.Builder)
        returns (r: Progress, seen': set<Npub>)
      requires HasPayload(View()) && t.now < w.until && !(w.early && |seen| >= Payload(View()).peers)
      modifies this`peers, this`outbox
      ensures State(View(), After(r, PeerRound(w.until, w.early, seen', cj)))
              == StepPeerRound(old(View()), w.until, w.early, seen, cj, t)
    {
      seen' := seen;
      r := Going;
      match Received(t) {
        case Some(Join(Some(npub))) =>
          if npub !in seen {
            if role.Initiator? {
              if !t.sendOk {
                return Stopped(Relay), seen;
              }
              outbox := outbox + [CredentialsMessage(Credentials(pool.value.id, key))];
            }
            seen' := seen + {npub};
            peers := peers + [npub];
          }
        case Some(Join(None)) =>
          return Panicked(JoinWithoutKey), seen;
        case _ =>
      }
    }

    // -------------------------------------------------------------- the output round

    method RegisterOutput(address: Address, t: Tick) returns (r: Progress)
      requires HasPayload(View())
      modifies this`outputs, this`outbox
      ensures r == if t.sendOk then Going else Stopped(Relay)
      ensures View() == if t.sendOk then Send(old(View()), Output(address)).(outputs := old(outputs) + [address])
                else old(View())
    {
      if !t.sendOk {
        return Stopped(Relay);
      }
      outbox := outbox + [Output(address)];
      outputs := outputs + [address];
      r := Going;
    }

    method OpenOutputRound(t: Tick, cj: CoinJoin, ghost seen: set<Npub>) returns (r: Progress, until: u64)
      requires HasPayload(View()) && cj.Valid() && coinjoin == null
      modifies this`outputs, this`outbox, cj`outputs
      ensures cj.Valid() && coinjoin == null
      ensures State(View(), After(r, OutputRound(until, seen, cj.View())))
              == StepOwnOutput(old(View()), seen, old(cj.View()), t)
    {
      until := 0;
      if output.Some? {
        if !t.sendOk {
          return Stopped(Relay), 0;
        }
        cj.AddOutput(output.value);
        r := RegisterOutput(output.value, t);
      }
      match EndTimeline(pool.value.payload.value) {
        case None => return Stopped(TimelineDuration), 0;
        case Some(end) => return Going, end;
      }
    }

    method ReceiveOutputs(addresses: seq<Address>, cj: CoinJoin)
      requires pool.Some? && cj.Valid()
      modifies cj`outputs
      ensures cj.Valid()
      ensures cj.View() == AddOutputs(old(cj.View()), ValidOnly(addresses, pool.value.network))
    {
      ghost var before := cj.View();
      for i := 0 to |addresses|
        invariant cj.Valid()
        invariant AddOutputs(cj.View(), ValidOnly(addresses[i..], pool.value.network))
                  == AddOutputs(before, ValidOnly(addresses, pool.value.network))
      {
        NextAddress(cj.View(), addresses, i, pool.value.network);
        if addresses[i].ValidForNetwork(pool.value.network) {
          cj.AddOutput(addresses[i]);
        }
      }
    }

    method PollOutputs(t: Tick, until: u64, ghost seen: set<Npub>, cj: CoinJoin) returns (r: Progress)
      requires HasPayload(View()) && cj.Valid() && coinjoin == null
      requires t.now < until && |cj.outputs| < |seen|
      modifies this`outputs, cj`outputs
      ensures cj.Valid() && coinjoin == null
      ensures State(View(), After(r, OutputRound(until, seen, cj.View())))
              == StepOutputRound(old(View()), until, seen, old(cj.View()), t)
    {
      match Received(t) {
        case Some(Output(a)) =>
          ghost var before := cj.View();
          ReceiveOutputs([a], cj);
          OneAddress(before, a, pool.value.network);
          outputs := outputs + [a];
          r := Going;
        case Some(Input(_)) =>
          r := Panicked(InputDuringOutputRound);
        case _ =>
          r := Going;
      }
    }

    // -------------------------------------------------------------- signing and inputs

    method GenerateUnsignedTx() returns (r: Progress)
      requires Valid()
      modifies coinjoin
      ensures Valid()
      ensures coinjoin == null ==> r == Stopped(CoinjoinMissing)
      ensures coinjoin != null ==>
                && coinjoin.View() == Spec.GeneratePsbt(old(View()).coinjoin.value).0
                && r == (match Spec.GeneratePsbt(old(View()).coinjoin.value).1
                         case Ok(_) => Going
                         case Err(e) => Stopped(CoinjoinError(e))
                         case Abort => Panicked(AmountOverflow))
    {
      if coinjoin == null {
        return Stopped(CoinjoinMissing);
      }
      var generated := coinjoin.GeneratePsbt();
      match generated {
        case Ok(_) => r := Going;
        case Err(e) => r := Stopped(CoinjoinError(e));
        case Abort => r := Panicked(AmountOverflow);
      }
    }

    method RegisterInput(w: Wallet, t: Tick) returns (r: Progress)
      requires Valid() && coinjoin != null && input.Some?
      modifies this`input, this`inputs, this`outbox
      ensures Valid()
      ensures State(View(), After(r, InputDeadline)) == SendOwnInput(old(View()), w, t)
    {
      if coinjoin.psbt.None? {
        return Stopped(UnsignedTxNotExists);
      }
      var result := Sign(w, coinjoin.psbt.value, input.value);
      r := SendSigned(result, t);
    }

    /** Give the coin away, and send its signed input if signing succeeded. */
    method SendSigned(result: SignResult, t: Tick) returns (r: Progress)
      modifies this`input, this`inputs, this`outbox
      ensures State(View(), After(r, InputDeadline)) == AfterSigning(old(View()), result, t)
    {
      input := None;
      match result {
        case SignAbort => return Panicked(SignerPanic);
        case SignFailed(e) => return Stopped(SigningFail(e));
        case Signed(signed) =>
          if !HasPayload(View()) {
            return Stopped(PoolNotExists);
          }
          if !t.sendOk {
            return Stopped(Relay);
          }
          outbox := outbox + [Input(signed)];
          inputs := inputs + [signed];
          return Going;
      }
    }

    method GenerateAndSign(signer: Option<Wallet>, t: Tick) returns (r: Progress)
      requires Valid()
      modifies this`input, this`inputs, this`outbox, coinjoin
      ensures Valid()
      ensures State(View(), After(r, InputDeadline)) == StepSignRound(old(View()), signer, t)
    {
      r := GenerateUnsignedTx();
      if !r.Going? {
        return;
      }
      if input.Some? {
        if signer.None? {
          return Stopped(SignerMissing);
        }
        r := RegisterInput(signer.value, t);
      }
    }

    method TryRegisterInput(i: InputDataSigned)
      requires Valid() && coinjoin != null
      modifies this`inputs, coinjoin
      ensures Valid()
      ensures View() == TryRegister(old(View()), i)
    {
      var added := coinjoin.AddInput(i);
      if added.Ok? {
        inputs := inputs + [i];
      }
    }

    method TryFinalizeCoinjoin() returns (r: Progress, finalized: bool)
      requires Valid() && coinjoin != null
      modifies coinjoin
      ensures Valid()
      ensures r.Stopped? ==> false
      ensures forall until: u64 ::
                State(View(), After(r, if finalized then InputCheck(until) else InputRound(until)))
                    == TryFinalize(old(View()), until)
    {
      if |coinjoin.inputs| < |coinjoin.outputs| {
        return Going, false;
      }
      var generated := coinjoin.GenerateTx(false);
      match generated {
        case Ok(_) => return Going, true;
        case Err(_) => return Going, false;
        case Abort => return Panicked(AmountOverflow), false;
      }
    }

    method PollInputs(t: Tick, until: u64) returns (r: Progress, finalized: bool)
      requires Valid() && coinjoin != null && coinjoin.tx.None? && t.now < until
      modifies this`inputs, coinjoin
      ensures Valid()
      ensures State(View(), After(r, if finalized then InputCheck(until) else InputRound(until)))
              == StepInputRound(old(View()), until, t)
    {
      var received: Option<InputDataSigned> := None;
      match Received(t) {
        case Some(PsbtMessage(p)) =>
          match FromPsbt(p) {
            case PsbtErr(_) => return Stopped(PsbtToInput), false;
            case PsbtOk(i) => received := Some(i);
          }
        case Some(Input(i)) => received := Some(i);
        case _ =>
      }
      if received.None? {
        return Going, false;
      }
      TryRegisterInput(received.value);
      r, finalized := TryFinalizeCoinjoin();
    }

    method BroadcastTx(t: Tick) returns (r: Progress)
      requires Valid()
      modifies this`finalTx, this`phase
      ensures Valid()
      ensures State(View(), After(r, Finished)) == StepBroadcasting(old(View()), t)
    {
      if !HasPayload(View()) {
        return Stopped(PoolNotExists);
      }
      if coinjoin == null {
        return Stopped(CoinjoinMissing);
      }
      if coinjoin.tx.None? {
        return Stopped(MissingFinalTx);
      }
      if hasBackend && !t.sendOk {
        return Stopped(BroadcastFail);
      }
      finalTx := coinjoin.tx;
      phase := Broadcast;
      return Going;
    }

    // -------------------------------------------------------------- the loops

    /** The object has followed its course to the present tick and stands at `pc`. */
    ghost predicate Follows(c: Course, env: Environment, pc: Pc)
      reads this, coinjoin, env
    {
      c.ticks == env.ticks && c.from <= env.pos && StateAt(c, env.pos) == State(View(), pc)
    }

    /** The deadline of the input round, checked once before the round. */
    method OpenInputRound(env: Environment, ghost c: Course, ghost signer: Option<Wallet>)
        returns (r: Progress, until: u64)
      requires Valid() && StepsWith(c, signer) && Follows(c, env, InputDeadline)
      modifies env`pos
      ensures Valid() && Follows(c, env, After(r, InputRound(until)))
      ensures r.Going? ==> coinjoin != null
    {
      until := 0;
      var t := env.Next();
      AdvanceInputs(c, signer, env.pos - 1, View(), InputDeadline);
      if !HasPayload(View()) {
        return Stopped(PoolNotExists), 0;
      }
      if coinjoin == null {
        return Stopped(CoinjoinMissing), 0;
      }
      var deadline := InputTimeline(Payload(View()), t.now);
      if deadline.None? {
        return Panicked(DeadlineOverflow), 0;
      }
      until := deadline.value;
      t := env.Next();
      AdvanceInputs(c, signer, env.pos - 1, View(), InputStart(until));
      r := if t.now > until then Stopped(TimedOut) else Going;
    }

    /** One pass through the input loop. */
    method InputPass(env: Environment, until: u64, ghost c: Course, ghost signer: Option<Wallet>)
      returns (r: Progress, over: bool)
      requires Valid() && coinjoin != null && Fed(c) && StepsWith(c, signer) && Follows(c, env, InputRound(until))
      modifies this`inputs, coinjoin, env`pos
      ensures Valid() && Follows(c, env, After(r, if over then InputCheck(until) else InputRound(until)))
      ensures env.pos == old(env.pos) + 1 && (r.Going? && !over ==> Nearer(c, until, old(env.pos)))
    {
      var t := env.Next();
      AdvanceInputs(c, signer, env.pos - 1, View(), InputRound(until));
      if t.now >= until || coinjoin.tx.Some? {
        return Going, true;
      }
      PollBringsNearer(c, until, env.pos - 1);
      r, over := PollInputs(t, until);
    }

    method InputLoop(env: Environment, until: u64, ghost c: Course, ghost signer: Option<Wallet>) returns (r: Progress)
      requires Valid() && coinjoin != null && Fed(c)
      requires StepsWith(c, signer) && Follows(c, env, InputRound(until))
      modifies this`inputs, coinjoin, env`pos
      ensures Valid() && Follows(c, env, After(r, InputCheck(until)))
    {
      var over := false;
      r := Going;
      while r.Going? && !over
        invariant Valid() && Follows(c, env, After(r, if over then InputCheck(until) else InputRound(until)))
        decreases r.Going? && !over, Left(until, env.ticks(env.pos).now), c.queued(env.pos)
      {
        r, over := InputPass(env, until, c, signer);
      }
    }

    method RegisterInputs(env: Environment, ghost c: Course, ghost signer: Option<Wallet>) returns (r: Progress)
      requires Valid() && Fed(c) && StepsWith(c, signer) && Follows(c, env, InputDeadline)
      modifies this`inputs, coinjoin, env`pos
      ensures Valid() && Follows(c, env, After(r, Broadcasting))
    {
      var until;
      r, until := OpenInputRound(env, c, signer);
      if !r.Going? {
        return;
      }
      r := InputLoop(env, until, c, signer);
      if !r.Going? {
        return;
      }
      var t := env.Next();
      AdvanceInputs(c, signer, env.pos - 1, View(), InputCheck(until));
      r := if t.now > until then Stopped(TimedOut) else Going;
    }

    /** One pass through the peer loop. */
    method PeerPass(env: Environment, w: Window, seen: set<Npub>, ghost cj: Spec.Builder, ghost c: Course,
        ghost signer: Option<Wallet>)
      returns (r: Progress, seen': set<Npub>, over: bool)
      requires HasPayload(View()) && Fed(c) && StepsWith(c, signer)
                && Follows(c, env, PeerRound(w.until, w.early, seen, cj))
      modifies this`peers, this`outbox, env`pos
      ensures Follows(c, env, After(r, if over then OwnOutput(seen', cj) else PeerRound(w.until, w.early, seen', cj)))
      ensures env.pos == old(env.pos) + 1 && (r.Going? && !over ==> Nearer(c, w.until, old(env.pos)))
    {
      var t := env.Next();
      AdvancePeers(c, signer, env.pos - 1, View(), w, seen, cj);
      if t.now >= w.until || (w.early && |seen| >= Payload(View()).peers) {
        return Going, seen, true;
      }
      PollBringsNearer(c, w.until, env.pos - 1);
      over := false;
      r, seen' := PollPeers(t, w, seen, cj);
    }

    method PeerLoop(env: Environment, w: Window, ghost cj: Spec.Builder, ghost c: Course, ghost signer: Option<Wallet>)
      returns (r: Progress, seen: set<Npub>)
      requires HasPayload(View()) && Fed(c)
      requires StepsWith(c, signer) && Follows(c, env, PeerRound(w.until, w.early, {}, cj))
      modifies this`peers, this`outbox, env`pos
      ensures Follows(c, env, After(r, OwnOutput(seen, cj)))
    {
      var over := false;
      r, seen := Going, {};
      while r.Going? && !over
        invariant Follows(c, env, After(r, if over then OwnOutput(seen, cj) else PeerRound(w.until, w.early, seen, cj)))
        decreases r.Going? && !over, Left(w.until, env.ticks(env.pos).now), c.queued(env.pos)
      {
        r, seen, over := PeerPass(env, w, seen, cj, c, signer);
      }
    }

    /** One pass through the output loop. */
    method OutputPass(env: Environment, until: u64, seen: set<Npub>, cj: CoinJoin, ghost c: Course,
        ghost signer: Option<Wallet>)
      returns (r: Progress, over: bool)
      requires cj.Valid() && coinjoin == null && HasPayload(View())
      requires Fed(c) && StepsWith(c, signer) && Follows(c, env, OutputRound(until, seen, cj.View()))
      modifies this`outputs, cj`outputs, env`pos
      ensures cj.Valid()
      ensures Follows(c, env,
                After(r, if over then OutputCheck(until, seen, cj.View()) else OutputRound(until, seen, cj.View())))
      ensures env.pos == old(env.pos) + 1 && (r.Going? && !over ==> Nearer(c, until, old(env.pos)))
    {
      var t := env.Next();
      AdvanceOutputs(c, signer, env.pos - 1, View(), until, seen, cj.View());
      if t.now >= until || |cj.outputs| >= |seen| {
        return Going, true;
      }
      PollBringsNearer(c, until, env.pos - 1);
      over := false;
      r := PollOutputs(t, until, seen, cj);
    }

    method OutputLoop(env: Environment, until: u64, seen: set<Npub>, cj: CoinJoin, ghost c: Course,
        ghost signer: Option<Wallet>)
      returns (r: Progress)
      requires cj.Valid() && coinjoin == null && HasPayload(View()) && Fed(c)
      requires StepsWith(c, signer) && Follows(c, env, OutputRound(until, seen, cj.View()))
      modifies this`outputs, cj`outputs, env`pos
      ensures cj.Valid() && Follows(c, env, After(r, OutputCheck(until, seen, cj.View())))
    {
      var over := false;
      r := Going;
      while r.Going? && !over
        invariant cj.Valid()
        invariant Follows(c, env,
                  After(r, if over then OutputCheck(until, seen, cj.View()) else OutputRound(until, seen, cj.View())))
        decreases r.Going? && !over, Left(until, env.ticks(env.pos).now), c.queued(env.pos)
      {
        r, over := OutputPass(env, until, seen, cj, c, signer);
      }
    }

    // -------------------------------------------------------------- the whole run

    method Post(id: string, t: Tick) returns (r: Progress)
      modifies this`phase, this`pool
      ensures r.Going? ==> HasPayload(View()) && JoinstrSpec.Post(old(View()), id, t) == EnterOutputs(View())
      ensures !r.Going? ==> JoinstrSpec.Post(old(View()), id, t) == State(View(), After(r, Finished))
    {
      if !IsReady(View()) {
        return Stopped(ParamMissing);
      }
      var created := NewPool(View(), id);
      phase := Posting;
      if !t.sendOk {
        return Stopped(Relay);
      }
      pool := Some(created);
      phase := OutputRegistration;
      r := Going;
    }

    method JoinPool(env: Environment, t0: Tick, ghost c: Course, ghost signer: Option<Wallet>) returns (r: Progress)
      requires Fed(c) && StepsWith(c, signer) && c.ticks == env.ticks && c.from == env.pos
      requires c.start == JoinstrSpec.JoinPool(View(), t0)
      modifies this`phase, this`key, this`outbox, env`pos
      ensures c.from <= env.pos
      ensures r.Going? ==> StateAt(c, env.pos) == EnterOutputs(View())
      ensures !r.Going? ==> Follows(c, env, After(r, Finished))
    {
      if !HasPayload(View()) {
        return Stopped(PoolNotExists);
      }
      phase := Connecting;
      if !t0.sendOk {
        return Stopped(Relay);
      }
      outbox := outbox + [Join(Some(npub))];
      r := JoinLoop(env, StartTimeline(Payload(View())).until, c, signer);
    }

    /** One pass through the loop that waits for the pool's credentials. */
    method JoinPass(env: Environment, until: u64, ghost c: Course, ghost signer: Option<Wallet>)
      returns (r: Progress, connected: bool)
      requires HasPayload(View()) && Fed(c) && StepsWith(c, signer) && Follows(c, env, Joining(until))
      modifies this`key, this`phase, env`pos
      ensures c.from <= env.pos
      ensures connected ==> r.Going? && StateAt(c, env.pos) == EnterOutputs(View())
      ensures !connected ==> Follows(c, env, After(r, Joining(until)))
      ensures env.pos == old(env.pos) + 1 && (r.Going? && !connected ==> Nearer(c, until, old(env.pos)))
    {
      var t := env.Next();
      AdvanceJoining(c, signer, env.pos - 1, View(), until);
      if t.now >= until {
        return Stopped(PoolConnectionTimeout), false;
      }
      PollBringsNearer(c, until, env.pos - 1);
      r, connected := PollCredentials(t);
    }

    method JoinLoop(env: Environment, until: u64, ghost c: Course, ghost signer: Option<Wallet>) returns (r: Progress)
      requires HasPayload(View()) && Fed(c) && StepsWith(c, signer) && Follows(c, env, Joining(until))
      modifies this`phase, this`key, env`pos
      ensures c.from <= env.pos
      ensures r.Going? ==> StateAt(c, env.pos) == EnterOutputs(View())
      ensures !r.Going? ==> Follows(c, env, After(r, Finished))
    {
      var connected := false;
      r := Going;
      while r.Going? && !connected
        invariant c.from <= env.pos
        invariant connected ==> r.Going? && StateAt(c, env.pos) == EnterOutputs(View())
        invariant !connected ==> Follows(c, env, After(r, Joining(until)))
        decreases r.Going? && !connected, Left(until, env.ticks(env.pos).now), c.queued(env.pos)
      {
        r, connected := JoinPass(env, until, c, signer);
      }
    }

    /** The opening of `register_outputs`, with the initiator's dummy request. */
    method OpenPeerRound(env: Environment, ghost c: Course, ghost signer: Option<Wallet>)
      returns (r: Progress, w: Window, cj: CoinJoin)
      requires c.ticks == env.ticks && c.from <= env.pos && StepsWith(c, signer)
                && StateAt(c, env.pos) == EnterOutputs(View())
      modifies this`outbox, env`pos
      ensures fresh(cj) && cj.Valid() && cj.client == null
      ensures Follows(c, env, After(r, PeerRound(w.until, w.early, {}, cj.View())))
      ensures r.Going? ==> HasPayload(View())
    {
      w := Window(0, false);
      if !HasPayload(View()) {
        cj := new CoinJoin(0, 0, 0, null);
        return Stopped(PoolNotExists), w, cj;
      }
      var payload := Payload(View());
      match payload.fee {
        case Provider =>
          cj := new CoinJoin(0, 0, 0, null);
          return Stopped(NotYetImplemented), w, cj;
        case FixedFee(rate) =>
          w := StartTimeline(payload);
          cj := new CoinJoin(payload.peers, payload.denomination, rate, null);
          if role.Initiator? {
            var t := env.Next();
            AdvanceDummyJoin(c, signer, env.pos - 1, View(), w, cj.View());
            if !t.sendOk {
              return Stopped(Relay), w, cj;
            }
            outbox := outbox + [Join(Some(t.freshKey))];
          }
          r := Going;
      }
    }

    /** The checks that close the output round. */
    method CloseOutputRound(env: Environment, until: u64, seen: set<Npub>, cj: CoinJoin, ghost c: Course,
        ghost signer: Option<Wallet>)
      returns (r: Progress)
      requires cj.Valid() && cj.client == null && coinjoin == null && HasPayload(View())
      requires StepsWith(c, signer) && Follows(c, env, OutputCheck(until, seen, cj.View()))
      modifies this`coinjoin, env`pos
      ensures Valid() && Follows(c, env, After(r, SignRound))
      ensures coinjoin == null || coinjoin == cj
    {
      var t := env.Next();
      AdvanceOutputCheck(c, signer, env.pos - 1, View(), until, seen, cj.View());
      if t.now > until {
        return Stopped(TimedOut);
      } else if |seen| < Payload(View()).peers {
        return Stopped(TooFewPeers(|seen|, Payload(View()).peers));
      } else if |cj.outputs| != |seen| {
        return Stopped(PeerCountNotMatch(|cj.outputs|, |seen|));
      }
      coinjoin := cj;
      r := Going;
    }

    method RegisterOutputs(env: Environment, ghost c: Course, ghost signer: Option<Wallet>) returns (r: Progress)
      requires coinjoin == null && Fed(c) && StepsWith(c, signer)
      requires c.ticks == env.ticks && c.from <= env.pos && StateAt(c, env.pos) == EnterOutputs(View())
      modifies this`outbox, this`peers, this`outputs, this`coinjoin, env`pos
      ensures Valid() && Follows(c, env, After(r, SignRound))
      ensures coinjoin == null || fresh(coinjoin)
    {
      var cj, seen;
      r, seen, cj := GatherPeers(env, c, signer);
      if r.Going? {
        r := GatherOutputs(env, seen, cj, c, signer);
      }
    }

    method GatherPeers(env: Environment, ghost c: Course, ghost signer: Option<Wallet>)
      returns (r: Progress, seen: set<Npub>, cj: CoinJoin)
      requires coinjoin == null && Fed(c) && StepsWith(c, signer)
      requires c.ticks == env.ticks && c.from <= env.pos && StateAt(c, env.pos) == EnterOutputs(View())
      modifies this`outbox, this`peers, env`pos
      ensures fresh(cj) && cj.Valid() && cj.client == null
      ensures Follows(c, env, After(r, OwnOutput(seen, cj.View())))
      ensures r.Going? ==> HasPayload(View())
    {
      var w;
      seen := {};
      r, w, cj := OpenPeerRound(env, c, signer);
      if r.Going? {
        r, seen := PeerLoop(env, w, cj.View(), c, signer);
      }
    }

    method GatherOutputs(env: Environment, seen: set<Npub>, cj: CoinJoin, ghost c: Course, ghost signer: Option<Wallet>)
      returns (r: Progress)
      requires cj.Valid() && cj.client == null && coinjoin == null && HasPayload(View())
      requires Fed(c) && StepsWith(c, signer) && Follows(c, env, OwnOutput(seen, cj.View()))
      modifies this`outputs, this`outbox, this`coinjoin, cj`outputs, env`pos
      ensures Valid() && Follows(c, env, After(r, SignRound))
      ensures coinjoin == null || coinjoin == cj
    {
      var until;
      r, until := StartOutputRound(env, seen, cj, c, signer);
      if !r.Going? {
        return;
      }
      r := OutputLoop(env, until, seen, cj, c, signer);
      if r.Going? {
        r := CloseOutputRound(env, until, seen, cj, c, signer);
      }
    }

    method StartOutputRound(env: Environment, ghost seen: set<Npub>, cj: CoinJoin, ghost c: Course,
        ghost signer: Option<Wallet>)
      returns (r: Progress, until: u64)
      requires cj.Valid() && coinjoin == null && HasPayload(View())
      requires StepsWith(c, signer) && Follows(c, env, OwnOutput(seen, cj.View()))
      modifies this`outputs, this`outbox, cj`outputs, env`pos
      ensures cj.Valid() && Follows(c, env, After(r, OutputRound(until, seen, cj.View())))
    {
      var t := env.Next();
      AdvanceOwnOutput(c, signer, env.pos - 1, View(), seen, cj.View());
      r, until := OpenOutputRound(t, cj, seen);
    }

    method SignPass(env: Environment, signer: Option<Wallet>, ghost c: Course) returns (r: Progress)
      requires Valid() && StepsWith(c, signer) && Follows(c, env, SignRound)
      modifies this`input, this`inputs, this`outbox, coinjoin, env`pos
      ensures Valid() && Follows(c, env, After(r, InputDeadline))
    {
      var t := env.Next();
      AdvanceInputs(c, signer, env.pos - 1, View(), SignRound);
      r := GenerateAndSign(signer, t);
    }

    method BroadcastPass(env: Environment, ghost c: Course, ghost signer: Option<Wallet>) returns (r: Progress)
      requires Valid() && StepsWith(c, signer) && Follows(c, env, Broadcasting)
      modifies this`finalTx, this`phase, env`pos
      ensures Valid() && Follows(c, env, After(r, Finished))
    {
      var t := env.Next();
      AdvanceInputs(c, signer, env.pos - 1, View(), Broadcasting);
      r := BroadcastTx(t);
    }

    /** Template, signature, input round and broadcast. */
    method SignAndFinish(env: Environment, signer: Option<Wallet>, ghost c: Course) returns (r: Progress)
      requires Valid() && Fed(c) && StepsWith(c, signer) && Follows(c, env, SignRound)
      modifies this`input, this`inputs, this`outbox, this`finalTx, this`phase, coinjoin, env`pos
      ensures Valid() && Follows(c, env, After(r, Finished))
    {
      r := SignPass(env, signer, c);
      if r.Going? {
        r := RegisterInputs(env, c, signer);
        if r.Going? {
          r := BroadcastPass(env, c, signer);
        }
      }
    }

    method Start(pool: Option<Pool>, id: string, t: Tick, env: Environment, ghost c: Course,
        ghost signer: Option<Wallet>)
      returns (r: Progress)
      requires Fed(c) && StepsWith(c, signer) && c.ticks == env.ticks && c.from == env.pos
      requires c.start == Begin(View(), pool, id, t)
      modifies this`pool, this`phase, this`key, this`outbox, env`pos
      ensures c.from <= env.pos
      ensures r.Going? ==> StateAt(c, env.pos) == EnterOutputs(View())
      ensures !r.Going? ==> Follows(c, env, After(r, Finished))
    {
      if role.UnknownRole? {
        return Stopped(WrongRole);
      }
      if pool.Some? {
        if this.pool.Some? {
          return Stopped(PoolAlreadyExists);
        }
        this.pool := pool;
        r := JoinPool(env, t, c, signer);
      } else {
        r := Post(id, t);
      }
    }

    /** The course of this participant from the tick after the present one. */
    ghost function CourseFrom(
      pool: Option<Pool>, id: string, signer: Option<Wallet>, env: Environment, queued: nat -> nat): Course
      reads this, coinjoin, env
    {
      Course(Stepper(signer), Begin(View(), pool, id, env.ticks(env.pos)), env.ticks, env.pos + 1, queued)
    }

    /** `start_coinjoin_blocking`: if the clock advances whenever a poll finds nothing, and polls take
        messages off a queue, it returns, having followed the step machine; and if a fresh participant
        succeeds, its transaction is what it should be. */
    method StartCoinjoinBlocking(
      pool: Option<Pool>, id: string, signer: Option<Wallet>, env: Environment, ghost queued: nat -> nat)
      returns (r: Progress)
      requires Fresh(View()) && Fed(CourseFrom(pool, id, signer, env, queued))
      modifies this, env`pos
      ensures Valid() && env.pos > old(env.pos)
      ensures var start := Begin(old(View()), pool, id, env.ticks(old(env.pos)));
              Run(Stepper(signer), start, env.ticks, old(env.pos) + 1, env.pos) == State(View(), After(r, Finished))
      ensures r.Going? ==>
                && finalTx.Some? && PaysEveryone(finalTx.value, View())
                && SpendsReceived(finalTx.value, View(), HeardIn(env.ticks, old(env.pos) + 1, env.pos))
    {
      ghost var c := CourseFrom(pool, id, signer, env, queued);
      BeginSound(View(), pool, id, env.ticks(env.pos));
      BeginSourced(View(), pool, id, env.ticks(env.pos), {});
      StepperSteps(c, signer);
      var t := env.Next();
      r := Start(pool, id, t, env, c, signer);
      if r.Going? {
        r := RegisterOutputs(env, c, signer);
        if r.Going? {
          r := SignAndFinish(env, signer, c);
        }
      }
      CourseEnds(c, signer, env.pos, State(View(), After(r, Finished)));
    }
  }

  lemma CourseEnds(c: Course, signer: Option<Wallet>, k: nat, s: State)
    requires c.step == Stepper(signer) && c.from <= k && Sound(c.start) && Sourced(c.start, {})
    requires StateAt(c, k) == s
    ensures s.pc.Finished? ==>
              && s.inner.finalTx.Some? && PaysEveryone(s.inner.finalTx.value, s.inner)
              && SpendsReceived(s.inner.finalTx.value, s.inner, HeardIn(c.ticks, c.from, k))
  {
    RunSourced(signer, c.start, c.ticks, c.from, k);
    if s.pc.Finished? {
      SuccessMeans(s, HeardIn(c.ticks, c.from, k));
    }
  }

  function ValidOnly(addresses: seq<Address>, network: Network): seq<Address> {
    if addresses == [] then []
    else (if addresses[0].ValidForNetwork(network) then [addresses[0]] else []) + ValidOnly(addresses[1..], network)
  }

  lemma NextAddress(b: Spec.Builder, addresses: seq<Address>, i: nat, network: Network)
    requires i < |addresses|
    ensures AddOutputs(b, ValidOnly(addresses[i..], network))
            == AddOutputs(if addresses[i].ValidForNetwork(network) then Spec.AddOutput(b, addresses[i]) else b,
                          ValidOnly(addresses[i + 1..], network))
  {
    var rest := ValidOnly(addresses[i + 1..], network);
    assert addresses[i..][1..] == addresses[i + 1..] && addresses[i..][0] == addresses[i];
    assert ([addresses[i]] + rest)[1..] == rest && [] + rest == rest;
  }

  lemma OneAddress(b: Spec.Builder, a: Address, network: Network)
    ensures AddOutputs(b, ValidOnly([a], network)) == if a.ValidForNetwork(network) then Spec.AddOutput(b, a) else b
  {
    assert [a][1..] == [];
    assert ValidOnly([a][1..], network) == [];
  }
}
