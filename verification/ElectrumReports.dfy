/** What the electrum loop asks and tells, said without the functions that compute it: the batches, what
    answers mean, and what the consumer hears of them. */
module ElectrumReports {
  import opened Bitcoin
  import opened ElectrumResponse
  import opened ElectrumListener
  import opened ElectrumRuns

  // ---------------------------------------------------------------- requests and the wire

  /** A batch has one request per script or transaction asked for, in order, under consecutive ids. */
  lemma BatchShape(last: ReqId, request: CoinRequest, hash: Hasher)
    ensures var batch := BatchFor(last, request, hash);
            && (forall i :: 0 <= i < |batch| ==> batch[i].id == (last + 1 + i) % U64_LIMIT)
            && match request
               case SubscribeTo(spks) =>
                 |batch| == |spks| && forall i :: 0 <= i < |spks| ==> batch[i].query == Subscribe(hash(spks[i]))
               case HistoryOf(spks) =>
                 |batch| == |spks| && forall i :: 0 <= i < |spks| ==> batch[i].query == GetHistory(hash(spks[i]))
               case TxsOf(txids) =>
                 |batch| == |txids| && forall i :: 0 <= i < |txids| ==> batch[i].query == GetTx(txids[i])
               case Stop => batch == []
  {}

  /** Failures to send are reported from the eleventh on. */
  lemma {:induction false} ComplaintsFromEleventh(n: nat)
    ensures |Complaints(n)| == (if n > 10 then n - 10 else 0)
    ensures forall i :: 0 <= i < |Complaints(n)| ==> Complaints(n)[i] == ErrorMessage
  {
    if n > 10 {
      ComplaintsFromEleventh(n - 1);
    }
  }

  function IdsOf(batch: seq<Request>): set<ReqId> {
    set i | 0 <= i < |batch| :: batch[i].id
  }

  function AnsweredIds(rs: seq<Response>): set<ReqId> {
    set i | 0 <= i < |rs| && IdOf(rs[i]).Some? :: IdOf(rs[i]).value
  }

  /** A message answers a batch if it answers every id of it. */
  lemma MatchesIff(batch: seq<Request>, rs: seq<Response>)
    ensures Matches(batch, rs) <==> IdsOf(batch) <= AnsweredIds(rs)
  {
    if IdsOf(batch) <= AnsweredIds(rs) {
      forall i | 0 <= i < |batch|
        ensures HasAnswer(rs, batch[i].id)
      {
        assert batch[i].id in IdsOf(batch);
        var j :| 0 <= j < |rs| && IdOf(rs[j]).Some? && IdOf(rs[j]).value == batch[i].id;
        assert IdOf(rs[j]) == Some(batch[i].id);
      }
    }
    if Matches(batch, rs) {
      forall id | id in IdsOf(batch)
        ensures id in AnsweredIds(rs)
      {
        var i :| 0 <= i < |batch| && batch[i].id == id;
        var j :| 0 <= j < |rs| && IdOf(rs[j]) == Some(batch[i].id);
        assert IdOf(rs[j]).Some? && IdOf(rs[j]).value == id;
      }
    }
  }

  /** A readable message ends the flight if it answers all of it; otherwise the whole batch goes out again
      after it. Without a batch in flight it is only heard. */
  lemma FlightAfter(turn: Turn, l: Loop, rs: seq<Response>)
    requires Hear(turn.reply, l.tables.index) == Readable(rs)
    ensures l.flight.None? ==> ServerWire(turn, l) == [Answered(rs)] && AfterServer(turn, l).flight == None
    ensures l.flight.Some? && IdsOf(l.flight.value) <= AnsweredIds(rs) ==>
              ServerWire(turn, l) == [Answered(rs)] && AfterServer(turn, l).flight == None
    ensures l.flight.Some? && !(IdsOf(l.flight.value) <= AnsweredIds(rs)) ==>
              ServerWire(turn, l) == [Answered(rs), Sent(l.flight.value)] && AfterServer(turn, l).flight == l.flight
  {
    if l.flight.Some? {
      MatchesIff(l.flight.value, rs);
    }
  }

  /** While a batch is in flight the consumer is not listened to; otherwise its request becomes the batch
      in flight, unless it asks for nothing. */
  lemma RequestTakenUp(turn: Turn, l: Loop, hash: Hasher)
    ensures l.flight.Some? || !turn.polled.Asked? ==> Midway(turn, l, hash) == l
    ensures l.flight.None? && turn.polled.Asked? ==>
              var batch, m := BatchFor(l.lastId, turn.polled.request, hash), Midway(turn, l, hash);
              && m.flight == (if batch == [] then None else Some(batch))
              && m.lastId == (l.lastId + Size(turn.polled.request)) % U64_LIMIT
              && UptakeOf(turn, l.tables, l.lastId, l.flight, hash).batch == batch
              && |PassComplaints(turn, l, hash)|
                  == (if batch != [] && turn.failures > 10 then turn.failures - 10 else 0)
  {
    ComplaintsFromEleventh(turn.failures);
  }

  ghost predicate SomeUnreadable(raws: seq<Raw>, index: Index) {
    exists i :: 0 <= i < |raws| && TryParse(raws[i], index).None?
  }

  /** Silence tells nothing; a message that cannot be read tells an error. */
  lemma ToldWithoutAnswers(turn: Turn, l: Loop, decode: Decoder)
    ensures turn.reply.Silence? ==>
              ServerTold(turn, l, decode) == [] && ServerWire(turn, l) == [] && AfterServer(turn, l) == l
    ensures turn.reply.ReadError? || (turn.reply.Lines? && SomeUnreadable(turn.reply.raws, l.tables.index)) ==>
              ServerTold(turn, l, decode) == [ErrorMessage] && ServerWire(turn, l) == [] && AfterServer(turn, l) == l
  {}

  // ---------------------------------------------------------------- what answers mean

  /** Heights below one mean an unconfirmed transaction. */
  lemma {:induction false} HeightsAre(entries: seq<Entry>, i: nat)
    requires i < |entries|
    ensures Heights(entries)[i].txid == entries[i].txid
    ensures entries[i].height <= 0 ==> Heights(entries)[i].height == None
    ensures 0 < entries[i].height < U64_LIMIT ==> Heights(entries)[i].height == Some(entries[i].height)
  {
    if i > 0 {
      HeightsAre(entries[1..], i - 1);
    }
  }

  /** A subscribe answer is about the script hash of its request, a notification about the one it names;
      both bring the status they carry. */
  lemma StatusesAre(id: ReqId, sh: ScriptHash, status: Option<string>, index: Index)
    ensures StatusOf(SHSubscribe(id, status)) == status && StatusOf(SHNotification(sh, status)) == status
    ensures StatusHash(SHNotification(sh, status), index) == Some(sh)
    ensures StatusHash(SHSubscribe(id, status), index) == Some(sh) <==> id in index && index[id].query == Subscribe(sh)
  {}

  ghost predicate Decodes(decode: Decoder, r: Response, tx: Transaction) {
    r.TxGet? && r.tx.RawTx? && decode(r.tx.hex) == Some(tx)
  }

  /** Exactly the transactions that decode are gathered. */
  lemma {:induction false} TxsGathered(decode: Decoder, rs: seq<Response>, n: nat, tx: Transaction)
    requires n <= |rs|
    ensures tx in TxsAfter(decode, rs, n) <==> exists i :: 0 <= i < n && Decodes(decode, rs[i], tx)
  {
    if n > 0 {
      TxsGathered(decode, rs, n - 1, tx);
    }
  }

  /** A history for a request still waiting is gathered for its script. */
  lemma {:induction false} HistoriesComplete(t: Tables, rs: seq<Response>, n: nat, i: nat)
    requires i < n <= |rs| && rs[i].SHGetHistory? && rs[i].historyId in TablesAfter(t, rs, i).reqidSpk
    ensures TablesAfter(t, rs, i).reqidSpk[rs[i].historyId] in HistoriesAfter(t, rs, n)
  {
    if i < n - 1 {
      HistoriesComplete(t, rs, n - 1, i);
    }
  }

  function ErrorAnswers(rs: seq<Response>, n: nat): set<nat>
    requires n <= |rs|
  {
    set i: nat | i < n && rs[i].ErrorResponse?
  }

  lemma {:induction false} ErrorsCounted(rs: seq<Response>, n: nat)
    requires n <= |rs|
    ensures |ErrorsAfter(rs, n)| == |ErrorAnswers(rs, n)|
    ensures forall i :: 0 <= i < |ErrorsAfter(rs, n)| ==> ErrorsAfter(rs, n)[i] == ErrorMessage
  {
    if n > 0 {
      ErrorsCounted(rs, n - 1);
      var before := ErrorAnswers(rs, n - 1);
      assert ErrorAnswers(rs, n) == if rs[n - 1].ErrorResponse? then before + {n - 1} else before;
    }
  }

  // ---------------------------------------------------------------- what the consumer hears

  function One(b: bool): nat {
    if b then 1 else 0
  }

  /** All that is told about a readable message: an error per error answer, then the histories, then the
      statuses, then the transactions, each once and whole if there are any, and nothing else. */
  lemma ToldExactly(decode: Decoder, t: Tables, rs: seq<Response>)
    ensures var told, errors := Told(decode, t, rs), |ErrorAnswers(rs, |rs|)|;
            var histories, statuses, txs := HistoriesAfter(t, rs, |rs|), StatusesAfter(t, rs, |rs|),
                TxsAfter(decode, rs, |rs|);
            var h, st, tx := One(histories != map[]), One(statuses != map[]), One(txs != []);
            && |told| == errors + h + st + tx
            && (forall i :: 0 <= i < errors ==> told[i] == ErrorMessage)
            && (h == 1 ==> told[errors] == Histories(histories))
            && (st == 1 ==> told[errors + h] == Statuses(statuses))
            && (tx == 1 ==> told[errors + h + st] == Txs(txs))
  {
    ErrorsCounted(rs, |rs|);
  }

  lemma ToldContains(decode: Decoder, t: Tables, rs: seq<Response>)
    ensures StatusesAfter(t, rs, |rs|) != map[] ==> Statuses(StatusesAfter(t, rs, |rs|)) in Told(decode, t, rs)
    ensures HistoriesAfter(t, rs, |rs|) != map[] ==> Histories(HistoriesAfter(t, rs, |rs|)) in Told(decode, t, rs)
    ensures TxsAfter(decode, rs, |rs|) != [] ==> Txs(TxsAfter(decode, rs, |rs|)) in Told(decode, t, rs)
  {
    ToldExactly(decode, t, rs);
  }

  /** What one step appends is in everything from then on. */
  lemma {:induction false} Accumulates<T>(total: nat -> seq<T>, first: nat -> seq<T>, second: nat -> seq<T>, k: nat,
      n: nat, x: T)
    requires forall i: nat :: total(i + 1) == total(i) + first(i) + second(i)
    requires k < n && (x in first(k) || x in second(k))
    ensures x in total(n)
    decreases n
  {
    assert total((n - 1) + 1) == total(n - 1) + first(n - 1) + second(n - 1);
    if k < n - 1 {
      Accumulates(total, first, second, k, n - 1, x);
    }
  }

  lemma DeliveredNext(turns: nat -> Turn, l: Loop, hash: Hasher, decode: Decoder, k: nat)
    ensures var before := LoopAfter(turns, l, hash, k);
            DeliveredBy(turns, l, hash, decode, k + 1)
            == DeliveredBy(turns, l, hash, decode, k)
               + PassComplaints(turns(k), before, hash) + PassTold(turns(k), before, hash, decode)
  {}

  /** What a pass tells is among all that is delivered. */
  lemma PassIsDelivered(turns: nat -> Turn, l: Loop, hash: Hasher, decode: Decoder, k: nat, n: nat, r: CoinResponse)
    requires k < n && r in PassTold(turns(k), LoopAfter(turns, l, hash, k), hash, decode)
    ensures r in DeliveredBy(turns, l, hash, decode, n)
  {
    var total := (i: nat) => DeliveredBy(turns, l, hash, decode, i);
    var complaints := (i: nat) => PassComplaints(turns(i), LoopAfter(turns, l, hash, i), hash);
    var told := (i: nat) => PassTold(turns(i), LoopAfter(turns, l, hash, i), hash, decode);
    forall i: nat
      ensures total(i + 1) == total(i) + complaints(i) + told(i)
    {
      DeliveredNext(turns, l, hash, decode, i);
    }
    Accumulates(total, complaints, told, k, n, r);
  }

  /** What is told about a message heard in pass `k` is among all that is delivered. */
  lemma ToldIsDelivered(
    turns: nat -> Turn, l: Loop, hash: Hasher, decode: Decoder, k: nat, n: nat, r: CoinResponse)
    requires k < n && r in Told(decode, HeardWith(turns, l, hash, k), HeardAt(turns, l, hash, k))
    requires Hear(turns(k).reply, HeardWith(turns, l, hash, k).index).Readable?
    ensures r in DeliveredBy(turns, l, hash, decode, n)
  {
    assert r in PassTold(turns(k), LoopAfter(turns, l, hash, k), hash, decode);
    PassIsDelivered(turns, l, hash, decode, k, n, r);
  }

  /** The tables against which the message of pass `k` is read. */
  function HeardWith(turns: nat -> Turn, l: Loop, hash: Hasher, k: nat): Tables {
    Midway(turns(k), LoopAfter(turns, l, hash, k), hash).tables
  }

  ghost predicate TellsStatus(r: CoinResponse, spk: Script, status: Option<string>) {
    r.Statuses? && spk in r.statuses && r.statuses[spk] == status
  }

  /** In every run each status heard about a subscribed script reaches the consumer, unless a later answer
      in the same message brings a newer one, which then does. */
  lemma StatusesReachConsumer(
    turns: nat -> Turn, l: Loop, hash: Hasher, decode: Decoder, n: nat, k: nat, i: nat, sh: ScriptHash)
    requires TablesOk(l.tables, hash) && k < n && i < |HeardAt(turns, l, hash, k)|
    requires var t := HeardWith(turns, l, hash, k);
             StatusHash(HeardAt(turns, l, hash, k)[i], t.index) == Some(sh) && sh in t.shSpk
    ensures var t, rs := HeardWith(turns, l, hash, k), HeardAt(turns, l, hash, k);
            && hash(t.shSpk[sh]) == sh
            && exists j, r :: && i <= j < |rs| && StatusHash(rs[j], t.index) == Some(sh)
                              && r in DeliveredBy(turns, l, hash, decode, n)
                              && TellsStatus(r, t.shSpk[sh], StatusOf(rs[j]))
  {
    var t, rs := HeardWith(turns, l, hash, k), HeardAt(turns, l, hash, k);
    var spk := t.shSpk[sh];
    RunKeepsTables(turns, l, hash, k);
    MidwayKeepsTables(turns(k), LoopAfter(turns, l, hash, k), hash);
    StatusesComplete(t, rs, |rs|, i);
    StatusesAttributed(t, rs, |rs|, hash, spk);
    var j :| Latest(rs, |rs|, t.index, sh, j) && StatusesAfter(t, rs, |rs|)[spk] == StatusOf(rs[j]);
    ToldContains(decode, t, rs);
    var r := Statuses(StatusesAfter(t, rs, |rs|));
    ToldIsDelivered(turns, l, hash, decode, k, n, r);
    assert TellsStatus(r, spk, StatusOf(rs[j]));
  }

  /** In every run each transaction that decodes reaches the consumer. */
  lemma TxsReachConsumer(
    turns: nat -> Turn, l: Loop, hash: Hasher, decode: Decoder, n: nat, k: nat, i: nat, tx: Transaction)
    requires k < n && i < |HeardAt(turns, l, hash, k)| && Decodes(decode, HeardAt(turns, l, hash, k)[i], tx)
    ensures exists r :: r in DeliveredBy(turns, l, hash, decode, n) && r.Txs? && tx in r.txs
  {
    var t, rs := HeardWith(turns, l, hash, k), HeardAt(turns, l, hash, k);
    TxsGathered(decode, rs, |rs|, tx);
    ToldContains(decode, t, rs);
    ToldIsDelivered(turns, l, hash, decode, k, n, Txs(TxsAfter(decode, rs, |rs|)));
  }

  /** In every run each history for a request still waiting reaches the consumer, for the script of the
      request. */
  lemma HistoriesReachConsumer(turns: nat -> Turn, l: Loop, hash: Hasher, decode: Decoder, n: nat, k: nat, i: nat)
    requires k < n && i < |HeardAt(turns, l, hash, k)| && HeardAt(turns, l, hash, k)[i].SHGetHistory?
    requires var rs := HeardAt(turns, l, hash, k);
             rs[i].historyId in TablesAfter(HeardWith(turns, l, hash, k), rs, i).reqidSpk
    ensures var rs := HeardAt(turns, l, hash, k);
            var spk := TablesAfter(HeardWith(turns, l, hash, k), rs, i).reqidSpk[rs[i].historyId];
            exists r :: r in DeliveredBy(turns, l, hash, decode, n) && r.Histories? && spk in r.histories
  {
    var t, rs := HeardWith(turns, l, hash, k), HeardAt(turns, l, hash, k);
    HistoriesComplete(t, rs, |rs|, i);
    ToldContains(decode, t, rs);
    ToldIsDelivered(turns, l, hash, decode, k, n, Histories(HistoriesAfter(t, rs, |rs|)));
  }

  // ---------------------------------------------------------------- returning

  /** Answer `k` is an error nobody listens to, and no answer before it ended the loop. */
  ghost predicate FirstUnheard(t: Tables, decode: Decoder, rs: seq<Response>, k: nat, open: bool) {
    && k < |rs| && rs[k].ErrorResponse? && !open
    && forall j :: 0 <= j < k ==> !Ends(t, decode, rs, j, open)
  }

  lemma {:induction false} TakeReturnsIff(t: Tables, decode: Decoder, rs: seq<Response>, n: nat, open: bool)
    requires n <= |rs|
    ensures TakeStatus(t, decode, rs, n, open).Returned? <==>
              exists k: nat :: k < n && FirstUnheard(t, decode, rs, k, open)
  {
    if n > 0 {
      TakeReturnsIff(t, decode, rs, n - 1, open);
      TakeRunsIff(t, decode, rs, n - 1, open);
      if TakeStatus(t, decode, rs, n - 1, open).Running? {
        if rs[n - 1].ErrorResponse? && !open {
          assert FirstUnheard(t, decode, rs, n - 1, open);
        }
      } else {
        var k :| 0 <= k < n - 1 && Ends(t, decode, rs, k, open);
        assert !FirstUnheard(t, decode, rs, n - 1, open);
      }
    }
  }

  /** Exactly when a pass ends the loop without a panic: the consumer hung up, asked for a stop, or does
      not listen when transactions cannot be asked for or an error has to be reported. */
  lemma PassReturnsIff(turn: Turn, l: Loop, hash: Hasher, decode: Decoder)
    ensures PassStatus(turn, l, hash, decode).Returned? <==>
              || (l.flight.None? && turn.polled.Disconnected?)
              || Stops(turn, l.flight)
              || (&& l.flight.None? && turn.polled.Asked? && turn.polled.request.TxsOf?
                  && turn.polled.request.txids != [] && turn.failures > 10 && !turn.open)
              || (ConsumerStatus(turn, l.flight).Running? && MessageReturns(turn, Midway(turn, l, hash), decode))
  {
    MessageReturnsIff(turn, Midway(turn, l, hash), decode);
  }

  ghost predicate MessageReturns(turn: Turn, l: Loop, decode: Decoder) {
    match Hear(turn.reply, l.tables.index)
    case Quiet => false
    case Unreadable => !turn.open
    case Readable(rs) =>
      && (l.flight.Some? && !Matches(l.flight.value, rs) ==> turn.resendOk)
      && exists k: nat :: FirstUnheard(l.tables, decode, rs, k, turn.open)
  }

  lemma MessageReturnsIff(turn: Turn, l: Loop, decode: Decoder)
    ensures ServerStatus(turn, l, decode).Returned? <==> MessageReturns(turn, l, decode)
  {
    match Hear(turn.reply, l.tables.index)
    case Readable(rs) => TakeReturnsIff(l.tables, decode, rs, |rs|, turn.open);
    case _ =>
  }
}
