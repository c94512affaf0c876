/** Runs of the electrum loop over any number of passes: exactly when one panics, and what keeps it
    going. */
module ElectrumRuns {
  import opened Bitcoin
  import opened ElectrumResponse
  import opened ElectrumListener

  type Decoder = string -> Option<Transaction>

  /** Whether answer `k` ends the loop: a fatal one, or an error nobody listens to. */
  ghost predicate Ends(t: Tables, decode: Decoder, rs: seq<Response>, k: nat, open: bool)
    requires k < |rs|
  {
    Fatal(TablesAfter(t, rs, k), decode, rs[k]) || (rs[k].ErrorResponse? && !open)
  }

  /** Answer `k` is fatal, and no answer before it ended the loop. */
  ghost predicate FirstFatal(t: Tables, decode: Decoder, rs: seq<Response>, k: nat, open: bool) {
    && k < |rs| && Fatal(TablesAfter(t, rs, k), decode, rs[k])
    && forall j :: 0 <= j < k ==> !Ends(t, decode, rs, j, open)
  }

  lemma {:induction false} TakeRunsIff(t: Tables, decode: Decoder, rs: seq<Response>, n: nat, open: bool)
    requires n <= |rs|
    ensures TakeStatus(t, decode, rs, n, open).Running? <==> forall k :: 0 <= k < n ==> !Ends(t, decode, rs, k, open)
    ensures TakeStatus(t, decode, rs, n, open).Panicked? <==>
              exists k: nat :: k < n && FirstFatal(t, decode, rs, k, open)
  {
    if n > 0 {
      TakeRunsIff(t, decode, rs, n - 1, open);
      if TakeStatus(t, decode, rs, n - 1, open).Running? {
        if Ends(t, decode, rs, n - 1, open) {
          assert FirstFatal(t, decode, rs, n - 1, open) || !Fatal(TablesAfter(t, rs, n - 1), decode, rs[n - 1]);
        }
      } else {
        var k :| 0 <= k < n - 1 && Ends(t, decode, rs, k, open);
        assert !FirstFatal(t, decode, rs, n - 1, open);
      }
    }
  }

  /** The consumer is gone when it has to be told that the loop stopped, or that a batch other than one
      of transactions cannot be sent. */
  predicate ConsumerMissed(turn: Turn, flight: Option<seq<Request>>) {
    && flight.None? && turn.polled.Asked? && !turn.open
    && var request := turn.polled.request;
       request.Stop? || (Size(request) > 0 && turn.failures > 10 && !request.TxsOf?)
  }

  /** The server's message cannot be survived: the batch in flight must be sent again and cannot be, an
      answer is fatal, or there is something to report and nobody listens. */
  ghost predicate MessagePanics(turn: Turn, l: Loop, decode: Decoder) {
    match Hear(turn.reply, l.tables.index)
    case Readable(rs) =>
      || (l.flight.Some? && !Matches(l.flight.value, rs) && !turn.resendOk)
      || (exists k: nat :: FirstFatal(l.tables, decode, rs, k, turn.open))
      || (&& !turn.open && GatheredReports(decode, l.tables, rs) != []
          && forall k :: 0 <= k < |rs| ==> !Ends(l.tables, decode, rs, k, turn.open))
    case _ => false
  }

  ghost predicate PassPanics(turn: Turn, l: Loop, hash: Hasher, decode: Decoder) {
    || ConsumerMissed(turn, l.flight)
    || (ConsumerStatus(turn, l.flight).Running? && MessagePanics(turn, Midway(turn, l, hash), decode))
  }

  lemma MessagePanicsIff(turn: Turn, l: Loop, decode: Decoder)
    ensures ServerStatus(turn, l, decode).Panicked? <==> MessagePanics(turn, l, decode)
  {
    match Hear(turn.reply, l.tables.index)
    case Readable(rs) => TakeRunsIff(l.tables, decode, rs, |rs|, turn.open);
    case _ =>
  }

  lemma PassPanicsIff(turn: Turn, l: Loop, hash: Hasher, decode: Decoder)
    ensures PassStatus(turn, l, hash, decode).Panicked? <==> PassPanics(turn, l, hash, decode)
  {
    MessagePanicsIff(turn, Midway(turn, l, hash), decode);
  }

  /** Pass `k` is reached, and it panics. */
  ghost predicate PanicsAt(turns: nat -> Turn, l: Loop, hash: Hasher, decode: Decoder, k: nat) {
    StatusAfter(turns, l, hash, decode, k).Running? && PassPanics(turns(k), LoopAfter(turns, l, hash, k), hash, decode)
  }

  /** Exactly when a run panics. */
  lemma {:induction false} RunPanicsIff(turns: nat -> Turn, l: Loop, hash: Hasher, decode: Decoder, n: nat)
    ensures StatusAfter(turns, l, hash, decode, n).Panicked? <==>
              exists k: nat :: k < n && PanicsAt(turns, l, hash, decode, k)
  {
    if n > 0 {
      RunPanicsIff(turns, l, hash, decode, n - 1);
      PassPanicsIff(turns(n - 1), LoopAfter(turns, l, hash, n - 1), hash, decode);
      if StatusAfter(turns, l, hash, decode, n).Panicked? && StatusAfter(turns, l, hash, decode, n - 1).Running? {
        assert PanicsAt(turns, l, hash, decode, n - 1);
      }
    }
  }

  // ---------------------------------------------------------------- what keeps a run going

  lemma MidwayKeepsTables(turn: Turn, l: Loop, hash: Hasher)
    requires TablesOk(l.tables, hash)
    ensures TablesOk(Midway(turn, l, hash).tables, hash)
  {
    if turn.polled.Asked? {
      RegisteredKeepsTables(l.tables, l.lastId, turn.polled.request, hash, Size(turn.polled.request));
    }
  }

  /** The tables stay consistent along every run. */
  lemma {:induction false} RunKeepsTables(turns: nat -> Turn, l: Loop, hash: Hasher, n: nat)
    requires TablesOk(l.tables, hash)
    ensures TablesOk(LoopAfter(turns, l, hash, n).tables, hash)
  {
    if n > 0 {
      RunKeepsTables(turns, l, hash, n - 1);
      var m := Midway(turns(n - 1), LoopAfter(turns, l, hash, n - 1), hash);
      MidwayKeepsTables(turns(n - 1), LoopAfter(turns, l, hash, n - 1), hash);
      match Hear(turns(n - 1).reply, m.tables.index)
      case Readable(rs) => TablesAfterFacts(m.tables, rs, |rs|, hash);
      case _ =>
    }
  }

  /** The answers read in a pass. */
  function HeardIn(turn: Turn, l: Loop, hash: Hasher): seq<Response> {
    match Hear(turn.reply, Midway(turn, l, hash).tables.index)
    case Readable(rs) => rs
    case _ => []
  }

  function HeardAt(turns: nat -> Turn, l: Loop, hash: Hasher, k: nat): seq<Response> {
    HeardIn(turns(k), LoopAfter(turns, l, hash, k), hash)
  }

  predicate IsHistory(rs: seq<Response>, i: nat, id: ReqId) {
    i < |rs| && rs[i].SHGetHistory? && rs[i].historyId == id
  }

  /** Answer `i` of pass `k` is a history, for request `id`. */
  predicate HistoryAt(turns: nat -> Turn, l: Loop, hash: Hasher, k: nat, i: nat, id: ReqId) {
    IsHistory(HeardAt(turns, l, hash, k), i, id)
  }

  ghost predicate HistoryBefore(turns: nat -> Turn, l: Loop, hash: Hasher, n: nat, id: ReqId) {
    exists k: nat, i: nat :: k < n && HistoryAt(turns, l, hash, k, i, id)
  }

  lemma {:induction false} RegisteringForgets(t: Tables, last: ReqId, request: CoinRequest, hash: Hasher, n: nat)
    requires n <= Size(request)
    ensures Registered(t, last, request, hash, n).answered <= t.answered
  {
    if n > 0 {
      RegisteringForgets(t, last, request, hash, n - 1);
    }
  }

  lemma MidwayForgets(turn: Turn, l: Loop, hash: Hasher)
    ensures Midway(turn, l, hash).tables.answered <= l.tables.answered
  {
    if turn.polled.Asked? {
      RegisteringForgets(l.tables, l.lastId, turn.polled.request, hash, Size(turn.polled.request));
    }
  }

  lemma PassAnswers(turn: Turn, l: Loop, hash: Hasher, id: ReqId)
    requires TablesOk(l.tables, hash) && id in NextLoop(turn, l, hash).tables.answered
    ensures id in l.tables.answered || exists i: nat :: IsHistory(HeardIn(turn, l, hash), i, id)
  {
    var m, rs := Midway(turn, l, hash), HeardIn(turn, l, hash);
    MidwayKeepsTables(turn, l, hash);
    MidwayForgets(turn, l, hash);
    if Hear(turn.reply, m.tables.index).Readable? {
      TablesAfterFacts(m.tables, rs, |rs|, hash);
      if id !in m.tables.answered {
        var i :| 0 <= i < |rs| && rs[i].SHGetHistory? && rs[i].historyId == id;
        assert IsHistory(rs, i, id);
      }
    }
  }

  /** The requests answered before pass `k`, and those whose history it brings, are all that count as
      answered after it. */
  ghost predicate PassAccounts(turns: nat -> Turn, l: Loop, hash: Hasher, k: nat) {
    forall id :: id in LoopAfter(turns, l, hash, k + 1).tables.answered ==>
      id in LoopAfter(turns, l, hash, k).tables.answered || exists i: nat :: HistoryAt(turns, l, hash, k, i, id)
  }

  lemma EveryPassAccounts(turns: nat -> Turn, l: Loop, hash: Hasher, k: nat)
    requires TablesOk(l.tables, hash)
    ensures PassAccounts(turns, l, hash, k)
  {
    var before := LoopAfter(turns, l, hash, k);
    RunKeepsTables(turns, l, hash, k);
    forall id | id in NextLoop(turns(k), before, hash).tables.answered
      ensures id in before.tables.answered || exists i: nat :: HistoryAt(turns, l, hash, k, i, id)
    {
      PassAnswers(turns(k), before, hash, id);
      if i: nat :| IsHistory(HeardIn(turns(k), before, hash), i, id) {
        assert HistoryAt(turns, l, hash, k, i, id);
      }
    }
  }

  lemma {:induction false} AccountedFor(turns: nat -> Turn, l: Loop, hash: Hasher, n: nat, id: ReqId)
    requires forall k: nat :: k < n ==> PassAccounts(turns, l, hash, k)
    requires id in LoopAfter(turns, l, hash, n).tables.answered
    ensures id in l.tables.answered || HistoryBefore(turns, l, hash, n, id)
  {
    if n > 0 {
      assert PassAccounts(turns, l, hash, n - 1);
      if id in LoopAfter(turns, l, hash, n - 1).tables.answered {
        AccountedFor(turns, l, hash, n - 1, id);
      }
    }
  }

  /** A request counts as answered only if a history for it was heard. */
  lemma AnsweredWasHeard(turns: nat -> Turn, l: Loop, hash: Hasher, n: nat, id: ReqId)
    requires TablesOk(l.tables, hash) && id in LoopAfter(turns, l, hash, n).tables.answered
    ensures id in l.tables.answered || HistoryBefore(turns, l, hash, n, id)
  {
    forall k: nat | k < n
      ensures PassAccounts(turns, l, hash, k)
    {
      EveryPassAccounts(turns, l, hash, k);
    }
    AccountedFor(turns, l, hash, n, id);
  }

  /** The consumer listens and wants no stop, a batch can be sent again, every notification is about a
      script subscribed to, and every transaction decodes. */
  ghost predicate Benign(turn: Turn, l: Loop, hash: Hasher, decode: Decoder) {
    && turn.open && turn.resendOk && !turn.polled.Disconnected? && (turn.polled.Asked? ==> !turn.polled.request.Stop?)
    && var m := Midway(turn, l, hash);
       match Hear(turn.reply, m.tables.index)
       case Readable(rs) =>
         forall i :: 0 <= i < |rs| ==>
           && (rs[i].SHNotification? ==> rs[i].sh in m.tables.shSpk)
           && (rs[i].TxGet? && rs[i].tx.RawTx? ==> decode(rs[i].tx.hex).Some?)
       case _ => true
  }

  ghost predicate BenignAt(turns: nat -> Turn, l: Loop, hash: Hasher, decode: Decoder, k: nat) {
    Benign(turns(k), LoopAfter(turns, l, hash, k), hash, decode)
  }

  /** In the whole run each history request is answered once at most, and never if it was before. */
  ghost predicate OneHistoryPerId(turns: nat -> Turn, l: Loop, hash: Hasher, n: nat) {
    && (forall k: nat, i: nat, id :: k < n && HistoryAt(turns, l, hash, k, i, id) ==> id !in l.tables.answered)
    && (forall k: nat, i: nat, k': nat, i': nat, id ::
          k < n && k' < n && HistoryAt(turns, l, hash, k, i, id) && HistoryAt(turns, l, hash, k', i', id) ==>
          k == k' && i == i')
  }

  lemma NoAnswerEnds(turns: nat -> Turn, l: Loop, hash: Hasher, decode: Decoder, n: nat, k: nat, i: nat)
    requires TablesOk(l.tables, hash) && OneHistoryPerId(turns, l, hash, n) && k < n
    requires Benign(turns(k), LoopAfter(turns, l, hash, k), hash, decode)
    requires i < |HeardAt(turns, l, hash, k)|
    ensures var m := Midway(turns(k), LoopAfter(turns, l, hash, k), hash);
            !Ends(m.tables, decode, HeardAt(turns, l, hash, k), i, true)
  {
    var before, rs := LoopAfter(turns, l, hash, k), HeardAt(turns, l, hash, k);
    var m := Midway(turns(k), before, hash);
    RunKeepsTables(turns, l, hash, k);
    MidwayKeepsTables(turns(k), before, hash);
    FatalIff(m.tables, rs, i, hash, decode);
    if rs[i].SHGetHistory? {
      var id := rs[i].historyId;
      assert HistoryAt(turns, l, hash, k, i, id);
      if j: nat :| j < i && rs[j].SHGetHistory? && rs[j].historyId == id {
        assert HistoryAt(turns, l, hash, k, j, id);
      }
      if id in m.tables.answered {
        NotYetAnswered(turns, l, hash, n, k, i, id);
      }
    }
  }

  lemma NotYetAnswered(turns: nat -> Turn, l: Loop, hash: Hasher, n: nat, k: nat, i: nat, id: ReqId)
    requires TablesOk(l.tables, hash) && OneHistoryPerId(turns, l, hash, n)
    requires k < n && HistoryAt(turns, l, hash, k, i, id)
    ensures id !in Midway(turns(k), LoopAfter(turns, l, hash, k), hash).tables.answered
  {
    var before := LoopAfter(turns, l, hash, k);
    MidwayForgets(turns(k), before, hash);
    if id in before.tables.answered {
      AnsweredWasHeard(turns, l, hash, k, id);
    }
  }

  lemma BenignPassGoesOn(turns: nat -> Turn, l: Loop, hash: Hasher, decode: Decoder, n: nat, k: nat)
    requires TablesOk(l.tables, hash) && OneHistoryPerId(turns, l, hash, n) && k < n
    requires Benign(turns(k), LoopAfter(turns, l, hash, k), hash, decode)
    ensures PassStatus(turns(k), LoopAfter(turns, l, hash, k), hash, decode).Running?
  {
    var rs := HeardAt(turns, l, hash, k);
    var m := Midway(turns(k), LoopAfter(turns, l, hash, k), hash);
    forall i | 0 <= i < |rs|
      ensures !Ends(m.tables, decode, rs, i, true)
    {
      NoAnswerEnds(turns, l, hash, decode, n, k, i);
    }
    TakeRunsIff(m.tables, decode, rs, |rs|, true);
    BenignConsumer(turns(k), LoopAfter(turns, l, hash, k), hash, decode);
    BenignMessage(turns(k), m, rs, decode);
  }

  lemma BenignConsumer(turn: Turn, l: Loop, hash: Hasher, decode: Decoder)
    requires Benign(turn, l, hash, decode)
    ensures ConsumerStatus(turn, l.flight).Running?
  {}

  lemma BenignMessage(turn: Turn, l: Loop, rs: seq<Response>, decode: Decoder)
    requires turn.open && turn.resendOk && TakeStatus(l.tables, decode, rs, |rs|, true).Running?
    requires Hear(turn.reply, l.tables.index).Readable? ==> Hear(turn.reply, l.tables.index) == Readable(rs)
    ensures ServerStatus(turn, l, decode).Running?
  {}

  ghost predicate Survives(turns: nat -> Turn, l: Loop, hash: Hasher, decode: Decoder, k: nat) {
    PassStatus(turns(k), LoopAfter(turns, l, hash, k), hash, decode).Running?
  }

  lemma {:induction false} PassesGoOn(turns: nat -> Turn, l: Loop, hash: Hasher, decode: Decoder, n: nat)
    requires forall k: nat :: k < n ==> Survives(turns, l, hash, decode, k)
    ensures StatusAfter(turns, l, hash, decode, n).Running?
  {
    if n > 0 {
      PassesGoOn(turns, l, hash, decode, n - 1);
      assert Survives(turns, l, hash, decode, n - 1);
    }
  }

  /** A benign run in which no history request is answered twice keeps going; in particular no subscribe
      answer ever stops it. */
  lemma BenignRunGoesOn(turns: nat -> Turn, l: Loop, hash: Hasher, decode: Decoder, n: nat)
    requires TablesOk(l.tables, hash) && OneHistoryPerId(turns, l, hash, n)
    requires forall k: nat :: k < n ==> BenignAt(turns, l, hash, decode, k)
    ensures StatusAfter(turns, l, hash, decode, n).Running?
  {
    forall k: nat | k < n
      ensures Survives(turns, l, hash, decode, k)
    {
      assert BenignAt(turns, l, hash, decode, k);
      BenignPassGoesOn(turns, l, hash, decode, n, k);
    }
    PassesGoOn(turns, l, hash, decode, n);
  }

  // ---------------------------------------------------------------- a partial answer

  function HistoryReply(id: ReqId, entries: seq<Entry>): Raw {
    RawReply(id, Entries(entries))
  }

  /** Two history requests are in flight, and the server first answers one of them, then both. The
      batch is sent again after the first message, and the second one makes the loop panic. */
  lemma PartialAnswerThenPanic(
    turns: nat -> Turn, l: Loop, hash: Hasher, decode: Decoder, a: Request, b: Request, h: seq<Entry>)
    requires TablesOk(l.tables, hash) && a.id != b.id && a.id !in l.tables.answered
    requires l.flight.Some? && a in l.flight.value && b in l.flight.value
    requires a.query.GetHistory? && b.query.GetHistory?
    requires a.id in l.tables.index && l.tables.index[a.id] == a && b.id in l.tables.index && l.tables.index[b.id] == b
    requires turns(0).open && turns(0).resendOk && turns(0).reply == Lines([HistoryReply(a.id, h)])
    requires turns(1).reply == Lines([HistoryReply(a.id, h), HistoryReply(b.id, h)])
    ensures StatusAfter(turns, l, hash, decode, 1).Running? && LoopAfter(turns, l, hash, 1).flight == l.flight
    ensures StatusAfter(turns, l, hash, decode, 2).Panicked?
  {
    var partial, full := [SHGetHistory(a.id, h)], [SHGetHistory(a.id, h), SHGetHistory(b.id, h)];
    assert Midway(turns(0), l, hash) == l;
    FirstAnswerResends(turns(0), l, decode, a, b, h);
    var l1 := LoopAfter(turns, l, hash, 1);
    assert l1 == NextLoop(turns(0), LoopAfter(turns, l, hash, 0), hash);
    assert l1.tables == WithAnswered(l.tables, a.id) && l1.flight == l.flight;
    assert Midway(turns(1), l1, hash) == l1;
    SecondAnswerPanics(turns(1), l1, decode, a, b, h);
    assert StatusAfter(turns, l, hash, decode, 1) == PassStatus(turns(0), l, hash, decode);
  }

  lemma FirstAnswerResends(turn: Turn, l: Loop, decode: Decoder, a: Request, b: Request, h: seq<Entry>)
    requires a.id != b.id && a.id !in l.tables.answered
    requires l.flight.Some? && b in l.flight.value && a.query.GetHistory?
    requires a.id in l.tables.index && l.tables.index[a.id] == a
    requires turn.open && turn.resendOk && turn.reply == Lines([HistoryReply(a.id, h)])
    ensures ServerStatus(turn, l, decode).Running?
    ensures AfterServer(turn, l) == l.(tables := WithAnswered(l.tables, a.id))
  {
    var partial := [SHGetHistory(a.id, h)];
    assert Answers([HistoryReply(a.id, h)], l.tables.index).value == partial;
    assert TablesAfter(l.tables, partial, 0) == l.tables;
    assert TablesAfter(l.tables, partial, 1) == WithAnswered(l.tables, a.id);
    var i :| 0 <= i < |l.flight.value| && l.flight.value[i] == b;
    assert IdOf(partial[0]) != Some(l.flight.value[i].id);
    assert !Ends(l.tables, decode, partial, 0, true);
    TakeRunsIff(l.tables, decode, partial, 1, true);
  }

  lemma SecondAnswerPanics(turn: Turn, l: Loop, decode: Decoder, a: Request, b: Request, h: seq<Entry>)
    requires a.id in l.tables.answered && a.query.GetHistory? && b.query.GetHistory?
    requires a.id in l.tables.index && l.tables.index[a.id] == a && b.id in l.tables.index && l.tables.index[b.id] == b
    requires turn.reply == Lines([HistoryReply(a.id, h), HistoryReply(b.id, h)])
    ensures ServerStatus(turn, l, decode).Panicked?
  {
    var full := [SHGetHistory(a.id, h), SHGetHistory(b.id, h)];
    assert Answers([HistoryReply(a.id, h), HistoryReply(b.id, h)], l.tables.index).value == full;
    assert TablesAfter(l.tables, full, 0) == l.tables;
    assert FirstFatal(l.tables, decode, full, 0, turn.open);
    MessagePanicsIff(turn, l, decode);
  }
}
