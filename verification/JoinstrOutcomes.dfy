/** What each step of a participant comes to, case by case: what is sent, what is recorded, where the run
    goes on, and which error ends it. */
module JoinstrOutcomes {
  import opened Permutations
  import opened Bitcoin
  import opened Nostr
  import opened CoinJoinSpec
  import opened CoinJoinLaws
  import opened Signer
  import opened JoinstrSpec
  import opened JoinstrLaws

  // ---------------------------------------------------------------- timelines and the beginning

  /** A sum that may not fit 64 bits. */
  ghost predicate SumIs(a: u64, b: u64, sum: Option<u64>) {
    && (sum.None? <==> a + b >= 0x1_0000_0000_0000_0000)
    && (sum.Some? ==> sum.value == a + b)
  }

  /** The three timelines: when the pool starts and whether it may start early, when the output round
      ends, and when the input round does. */
  lemma TimelinesAre(p: PoolPayload, now: u64)
    ensures StartTimeline(p).early <==> !p.timeout.Fixed?
    ensures p.timeout.Simple? ==>
              var t := p.timeout.timestamp;
              StartTimeline(p).until == t && EndTimeline(p) == Some(t) && InputTimeline(p, now) == Some(t)
    ensures p.timeout.Fixed? ==>
              && StartTimeline(p).until == p.timeout.start && InputTimeline(p, now) == EndTimeline(p)
              && SumIs(p.timeout.start, p.timeout.maxDuration, EndTimeline(p))
    ensures p.timeout.Timeout? ==>
              && StartTimeline(p).until == p.timeout.timeout
              && SumIs(p.timeout.timeout, p.timeout.maxDuration, EndTimeline(p))
              && SumIs(now, p.timeout.maxDuration, InputTimeline(p, now))
  {}

  /** Everything a new pool needs has been set, and there is none yet. */
  predicate CanPost(n: Inner) {
    !(n.pool.Some? || n.denomination.None? || n.peersCount.None? || n.timeout.None? || !n.hasRelay || n.fee.None?)
  }

  /** The error with which a run fails to begin. */
  lemma BeginErrors(n: Inner, pool: Option<Pool>, id: string, t: Tick)
    ensures var s := Begin(n, pool, id, t);
            && (s.pc == Failed(WrongRole) <==> n.role.UnknownRole?)
            && (s.pc == Failed(PoolAlreadyExists) <==> !n.role.UnknownRole? && pool.Some? && n.pool.Some?)
            && (s.pc == Failed(PoolNotExists) <==>
                  !n.role.UnknownRole? && pool.Some? && n.pool.None? && pool.value.payload.None?)
            && (s.pc == Failed(ParamMissing) <==> !n.role.UnknownRole? && pool.None? && !CanPost(n))
            && (s.pc == Failed(Relay) <==>
                  && !n.role.UnknownRole? && !t.sendOk
                  && if pool.Some? then n.pool.None? && pool.value.payload.Some? else CanPost(n))
            && !s.pc.Aborted?
  {}

  /** A given pool is joined by sending the own key and waiting until the pool starts. */
  lemma JoinOutcome(n: Inner, pool: Pool, id: string, t: Tick)
    requires !n.role.UnknownRole? && n.pool.None? && pool.payload.Some? && t.sendOk
    ensures Begin(n, Some(pool), id, t)
         == State(n.(pool := Some(pool), phase := Connecting, outbox := n.outbox + [Join(Some(n.npub))]),
                  Joining(StartTimeline(pool.payload.value).until))
  {}

  /** A new pool is what was set: denomination, number of peers, timeline and fee, under the own key, in the
      own network. */
  lemma PostOutcome(n: Inner, id: string, t: Tick)
    requires !n.role.UnknownRole? && CanPost(n) && t.sendOk
    ensures var s := Begin(n, None, id, t);
            && s.inner == n.(pool := s.inner.pool, phase := OutputRegistration)
            && s.inner.pool.Some? && s.inner.pool.value.payload.Some?
            && var pool, payload := s.inner.pool.value, s.inner.pool.value.payload.value;
               && pool.id == id && pool.publicKey == n.npub && pool.network == n.network
               && Some(payload.denomination) == n.denomination && Some(payload.peers) == n.peersCount
               && Some(payload.timeout) == n.timeout && Some(payload.fee) == n.fee
               && s == EnterOutputs(s.inner)
  {}

  /** Output registration starts with an empty builder that carries the pool's terms; the initiator first
      sends a request of its own. Fees set by a provider are not implemented. */
  lemma EnterOutcome(n: Inner)
    requires HasPayload(n)
    ensures var p, s := Payload(n), EnterOutputs(n);
            && s.inner == n
            && (p.fee.Provider? ==> s.pc == Failed(NotYetImplemented))
            && (p.fee.FixedFee? ==>
                  var cj := Builder([], None, [], None, p.peers, p.denomination, p.fee.rate);
                  var w := StartTimeline(p);
                  s.pc == if n.role.Initiator? then DummyJoin(w.until, w.early, cj)
                      else PeerRound(w.until, w.early, {}, cj))
  {}

  lemma DummyJoinOutcome(n: Inner, until: u64, early: bool, cj: Builder, t: Tick)
    ensures t.sendOk ==>
              StepDummyJoin(n, until, early, cj, t)
              == State(n.(outbox := n.outbox + [Join(Some(t.freshKey))]), PeerRound(until, early, {}, cj))
    ensures !t.sendOk ==> StepDummyJoin(n, until, early, cj, t) == State(n, Failed(Relay))
  {}

  /** Only credentials for this pool end the waiting; they bring the key. */
  lemma JoiningOutcome(n: Inner, until: u64, t: Tick)
    requires HasPayload(n)
    ensures var s := StepJoining(n, until, t);
            && (t.now >= until ==> s == State(n, Failed(PoolConnectionTimeout)))
            && (t.now < until && t.recv.BadEvent? ==> s == State(n, Failed(Relay)))
            && (t.now < until && t.recv.Message? && t.recv.message.CredentialsMessage?
                && t.recv.message.credentials.id == n.pool.value.id ==>
                  s == EnterOutputs(n.(key := t.recv.message.credentials.key, phase := OutputRegistration)))
            && (t.now < until && (t.recv.NoMessage? || (t.recv.Message? &&
                 (t.recv.message.CredentialsMessage? ==> t.recv.message.credentials.id != n.pool.value.id))) ==>
                  s == State(n, Joining(until)))
  {}

  // ---------------------------------------------------------------- the peer round

  /** The peer whose request is taken: the key in the request, or its sender. */
  function Requesting(t: Tick): Option<Npub> {
    match t.recv
    case Message(sender, Join(npub)) => Some(if npub.Some? then npub.value else sender)
    case _ => None
  }

  /** The round is over at the start of the pool, or early with enough peers. Until then each new request
      is recorded, and the initiator answers it with the pool's id and its own key. */
  lemma PeerRoundOutcome(n: Inner, until: u64, early: bool, seen: set<Npub>, cj: Builder, t: Tick)
    requires HasPayload(n)
    ensures var s := StepPeerRound(n, until, early, seen, cj, t);
            var over := t.now >= until || (early && |seen| >= Payload(n).peers);
            var peer := Requesting(t);
            && (over ==> s == State(n, OwnOutput(seen, cj)))
            && (!over && (peer.None? || peer.value in seen) ==> s == State(n, PeerRound(until, early, seen, cj)))
            && (!over && peer.Some? && peer.value !in seen && n.role.Initiator? && !t.sendOk ==>
                s == State(n, Failed(Relay)))
            && (!over && peer.Some? && peer.value !in seen && n.role.Initiator? && t.sendOk ==>
                  s == State(n.(peers := n.peers + [peer.value],
                                outbox := n.outbox + [CredentialsMessage(Credentials(n.pool.value.id, n.key))]),
                             PeerRound(until, early, seen + {peer.value}, cj)))
            && (!over && peer.Some? && peer.value !in seen && !n.role.Initiator? ==>
                  s == State(n.(peers := n.peers + [peer.value]), PeerRound(until, early, seen + {peer.value}, cj)))
  {}

  // ---------------------------------------------------------------- the output round

  /** The own address is sent, recorded and collected; a failed send or an overflowing end of the timeline
      ends the run. */
  lemma OwnOutputOutcome(n: Inner, seen: set<Npub>, cj: Builder, t: Tick)
    requires HasPayload(n) && Distinct(cj.outputs)
    ensures var s, end := StepOwnOutput(n, seen, cj, t), EndTimeline(Payload(n));
            && (n.output.Some? && !t.sendOk ==> s == State(n, Failed(Relay)))
            && (n.output.None? || t.sendOk ==>
                  && s.inner == (if n.output.None? then n
                                 else n.(outputs := n.outputs + [n.output.value],
                                         outbox := n.outbox + [Output(n.output.value)]))
                  && (end.None? <==> s.pc == Failed(TimelineDuration))
                  && (end.Some? ==>
                        && s.pc.OutputRound? && s.pc.until == end.value && s.pc.seen == seen
                        && CollectsOutput(cj, s.pc.cj, n.output)))
  {
    if n.output.Some? {
      AddOutputCollects(cj, n.output.value);
    }
  }

  /** The builder has gained the address, if there is one, and nothing else. */
  ghost predicate CollectsOutput(cj: Builder, cj': Builder, a: Option<Address>) {
    && cj' == cj.(outputs := cj'.outputs) && Distinct(cj'.outputs)
    && Elements(cj'.outputs) == Elements(cj.outputs) + if a.Some? then {a.value} else {}
  }

  lemma AddOutputCollects(cj: Builder, a: Address)
    requires Distinct(cj.outputs)
    ensures CollectsOutput(cj, AddOutput(cj, a), Some(a))
  {
    AddOutputKeepsDistinct(cj, a);
  }

  /** The address that a poll of the output round brings for this network. */
  function ValidOutput(n: Inner, t: Tick): Option<Address>
    requires n.pool.Some?
  {
    if t.recv.Message? && t.recv.message.Output? && t.recv.message.address.ValidForNetwork(n.pool.value.network)
    then Some(t.recv.message.address) else None
  }

  /** While the round is open, an address of the pool's network is collected, and every other message but
      a signed input leaves the builder alone. A round that is full or over goes to its checks. */
  lemma OutputRoundCollects(n: Inner, until: u64, seen: set<Npub>, cj: Builder, t: Tick)
    requires HasPayload(n) && Distinct(cj.outputs)
    ensures var s := StepOutputRound(n, until, seen, cj, t);
            var open := t.now < until && |cj.outputs| < |seen|;
            && (!open ==> s == State(n, OutputCheck(until, seen, cj)))
            && (open && !(t.recv.Message? && t.recv.message.Input?) ==>
                  && s.pc.OutputRound? && s.pc.until == until && s.pc.seen == seen
                  && CollectsOutput(cj, s.pc.cj, ValidOutput(n, t))
                  && s.inner == (if t.recv.Message? && t.recv.message.Output?
                                 then n.(outputs := n.outputs + [t.recv.message.address]) else n))
  {
    if ValidOutput(n, t).Some? {
      AddOutputCollects(cj, ValidOutput(n, t).value);
    }
  }

  /** Exactly when the output round is accepted, and the error otherwise. */
  lemma OutputCheckOutcome(n: Inner, until: u64, seen: set<Npub>, cj: Builder, t: Tick)
    requires HasPayload(n)
    ensures var s := StepOutputCheck(n, until, seen, cj, t);
            && (s == State(n.(coinjoin := Some(cj)), SignRound) <==>
                  t.now <= until && |seen| >= Payload(n).peers && |cj.outputs| == |seen|)
            && (s == State(n, Failed(TimedOut)) <==> t.now > until)
            && (s == State(n, Failed(TooFewPeers(|seen|, Payload(n).peers))) <==>
                  t.now <= until && |seen| < Payload(n).peers)
            && (s == State(n, Failed(PeerCountNotMatch(|cj.outputs|, |seen|))) <==>
                  t.now <= until && |seen| >= Payload(n).peers && |cj.outputs| != |seen|)
  {}

  // ---------------------------------------------------------------- signing

  /** The template that the participant freezes and signs. */
  function TemplateOf(n: Inner): Transaction
    requires n.coinjoin.Some?
  {
    UnsignedTx(n.coinjoin.value.outputs, n.coinjoin.value.denomination)
  }

  /** Freezing always succeeds here. Then the own coin, if there is one, is signed over the template, given
      away, and its signed input sent and recorded; nothing is ever sent otherwise. */
  lemma SignRoundOutcome(n: Inner, signer: Option<Wallet>, t: Tick)
    requires AtSign(n)
    ensures var s := StepSignRound(n, signer, t);
            var frozen := n.(coinjoin := Some(n.coinjoin.value.(psbt := Some(TemplateOf(n)))));
            && (n.input.None? ==> s == State(frozen, InputDeadline))
            && (n.input.Some? && signer.None? ==> s == State(frozen, Failed(SignerMissing)))
            && (n.input.Some? && signer.Some? ==>
                  match Sign(signer.value, TemplateOf(n), n.input.value)
                  case Signed(x) =>
                    if t.sendOk
                    then s == State(frozen.(input := None, inputs := n.inputs + [x], outbox := n.outbox + [Input(x)]),
                        InputDeadline)
                    else s == State(frozen.(input := None), Failed(Relay))
                  case SignFailed(e) => s == State(frozen.(input := None), Failed(SigningFail(e)))
                  case SignAbort => s == State(frozen.(input := None), Aborted(SignerPanic)))
  {
    DistinctCardinality(n.coinjoin.value.outputs);
    var b := GeneratePsbt(n.coinjoin.value).0;
    assert b == n.coinjoin.value.(psbt := Some(TemplateOf(n)));
    var n1 := n.(coinjoin := Some(b));
    if n1.input.Some? && signer.Some? {
      OwnInputOutcome(n1, signer.value, t);
    }
  }

  lemma OwnInputOutcome(n: Inner, w: Wallet, t: Tick)
    requires HasPayload(n) && n.coinjoin.Some? && n.coinjoin.value.psbt.Some? && n.input.Some?
    ensures var s := SendOwnInput(n, w, t);
            match Sign(w, n.coinjoin.value.psbt.value, n.input.value)
            case Signed(x) =>
              if t.sendOk
              then s == State(n.(input := None, inputs := n.inputs + [x], outbox := n.outbox + [Input(x)]),
                  InputDeadline)
              else s == State(n.(input := None), Failed(Relay))
            case SignFailed(e) => s == State(n.(input := None), Failed(SigningFail(e)))
            case SignAbort => s == State(n.(input := None), Aborted(SignerPanic))
  {}

  // ---------------------------------------------------------------- the input round

  /** The deadline is checked strictly before the round and after it: the moment itself is still in time. */
  lemma InputChecksOutcome(n: Inner, until: u64, t: Tick)
    ensures StepInputStart(n, until, t) == State(n, if t.now <= until then InputRound(until) else Failed(TimedOut))
    ensures StepInputCheck(n, until, t) == State(n, if t.now <= until then Broadcasting else Failed(TimedOut))
  {}

  /** The deadline of the input round. */
  lemma InputDeadlineOutcome(n: Inner, t: Tick)
    requires HasPayload(n) && n.coinjoin.Some?
    ensures var s, deadline := StepInputDeadline(n, t), InputTimeline(Payload(n), t.now);
            s == State(n, if deadline.Some? then InputStart(deadline.value) else Aborted(DeadlineOverflow))
  {}

  /** The builder has gained the input unless its outpoint is registered, up to the order of the inputs. */
  ghost predicate GainsInput(b: Builder, b': Builder, i: InputDataSigned) {
    && b' == b.(inputs := b'.inputs, tx := b'.tx)
    && multiset(b'.inputs) == multiset(b.inputs) + if Registered(b.inputs, OutPointOf(i)) then multiset{}
        else multiset{i}
  }

  /** While the round is open, an input that arrives, as such or as a PSBT, is registered unless its
      outpoint is; an unusable PSBT ends the run; any other message changes nothing. */
  lemma InputRoundOutcome(n: Inner, until: u64, t: Tick)
    requires AtInputs(n)
    ensures var s := StepInputRound(n, until, t);
            && (t.now >= until ==> s == State(n, InputCheck(until)))
            && (t.now < until && Offered(t).Some? ==>
                  var i := Offered(t).value;
                  && s.inner.coinjoin.Some? && GainsInput(n.coinjoin.value, s.inner.coinjoin.value, i)
                  && s.inner == n.(coinjoin := s.inner.coinjoin,
                                   inputs := if Registered(n.coinjoin.value.inputs, OutPointOf(i)) then n.inputs
                                       else n.inputs + [i]))
            && (t.now < until && t.recv.Message? && t.recv.message.PsbtMessage? && Offered(t).None? ==>
                  s == State(n, Failed(PsbtToInput)))
            && (t.now < until && Offered(t).None? && !(t.recv.Message? && t.recv.message.PsbtMessage?) ==>
                  s == State(n, InputRound(until)))
  {
    if t.now < until && Offered(t).Some? {
      assert StepInputRound(n, until, t) == RegisterAndFinalize(n, until, Offered(t).value);
      RegisterOutcome(n, until, Offered(t).value);
    }
  }

  lemma RegisterOutcome(n: Inner, until: u64, i: InputDataSigned)
    requires AtInputs(n)
    ensures var s := RegisterAndFinalize(n, until, i);
            && s.inner.coinjoin.Some? && GainsInput(n.coinjoin.value, s.inner.coinjoin.value, i)
            && s.inner == n.(coinjoin := s.inner.coinjoin,
                             inputs := if Registered(n.coinjoin.value.inputs, OutPointOf(i)) then n.inputs
                                 else n.inputs + [i])
  {
    TryRegisterOutcome(n, i);
    TryRegisterAtInputs(n, i);
    TryFinalizeOutcome(TryRegister(n, i), until);
  }

  lemma TryRegisterOutcome(n: Inner, i: InputDataSigned)
    requires n.coinjoin.Some?
    ensures var n' := TryRegister(n, i);
            && n'.coinjoin.Some? && GainsInput(n.coinjoin.value, n'.coinjoin.value, i)
            && n' == n.(coinjoin := n'.coinjoin,
                        inputs := if Registered(n.coinjoin.value.inputs, OutPointOf(i)) then n.inputs
                            else n.inputs + [i])
  {
    AddInputIff(n.coinjoin.value, i);
  }

  lemma TryFinalizeOutcome(n: Inner, until: u64)
    requires n.coinjoin.Some?
    ensures var s := TryFinalize(n, until);
            && s.inner.coinjoin.Some? && s.inner == n.(coinjoin := s.inner.coinjoin)
            && SameInputs(n.coinjoin.value, s.inner.coinjoin.value)
  {
    FinalizeSameInputs(n.coinjoin.value);
  }

  /** Nothing but the order of the inputs, and the final transaction, has changed. */
  ghost predicate SameInputs(b: Builder, b': Builder) {
    b' == b.(inputs := b'.inputs, tx := b'.tx) && multiset(b'.inputs) == multiset(b.inputs)
  }

  lemma FinalizeSameInputs(b: Builder)
    ensures SameInputs(b, FinalizeClaimed(b).0)
  {
    FinalizeChanges(b, Claimed(b.inputs), AmountMissing);
    SortPermutation(InputLe, b.inputs);
  }

  /** The run succeeds exactly if there is a final transaction and, with a backend, the broadcast does. */
  lemma BroadcastOutcome(n: Inner, t: Tick)
    requires HasPayload(n) && n.coinjoin.Some?
    ensures var s, tx := StepBroadcasting(n, t), n.coinjoin.value.tx;
            && (s.pc.Finished? <==> tx.Some? && (n.hasBackend ==> t.sendOk))
            && (s.pc.Finished? ==> s.inner == n.(finalTx := tx, phase := Broadcast))
            && (tx.None? ==> s == State(n, Failed(MissingFinalTx)))
            && (tx.Some? && n.hasBackend && !t.sendOk ==> s == State(n, Failed(BroadcastFail)))
  {}
}
