/** The synchronous calls of the electrum client, and coin discovery on top of them. */
module ElectrumClient {
  import opened Permutations
  import opened Bitcoin
  import opened ElectrumResponse

  datatype Error = Electrum | TxParsing | WrongResponse | TxDoesNotExists
  datatype Result<+T> = Ok(value: T) | Err(error: Error)

  /** One request and what comes back: sending may fail, and so may receiving. */
  datatype Exchange = Exchange(sendOk: bool, received: Option<seq<Raw>>)

  /** The libraries and the server behind a client: the exchange of turn `n` is `exchanges(n)`. */
  datatype Server = Server(hash: Script -> ScriptHash, decode: string -> Option<Transaction>,
      exchanges: nat -> Exchange)

  /** What a client remembers between calls. */
  datatype State = State(index: Index, lastId: ReqId, turn: nat)

  /** One exchange: the request is in the index while its answers are read, and only then. */
  function Asked(server: Server, s: State, query: Query): (State, Option<seq<Response>>) {
    var id := IdAfter(s.lastId, 1);
    var exchange := server.exchanges(s.turn);
    if !exchange.sendOk then (State(s.index, id, s.turn + 1), None)
    else
      (State(s.index - {id}, id, s.turn + 1),
       if exchange.received.None? then None else Answers(exchange.received.value, s.index[id := Request(id, query)]))
  }

  /** Whether the answer settles the transaction request `id`. */
  predicate SettlesTx(r: Response, id: ReqId) {
    match r
    case TxGet(i, RawTx(_)) => i == id
    case ErrorResponse(i) => i == id
    case _ => false
  }

  predicate SettlesHistory(r: Response, id: ReqId) {
    r.SHGetHistory? && r.historyId == id
  }

  /** What the answer that settles a transaction request means. */
  function Settled(decode: string -> Option<Transaction>, r: Response): Result<Transaction> {
    match r
    case TxGet(_, RawTx(hex)) => if decode(hex).Some? then Ok(decode(hex).value) else Err(TxParsing)
    case _ => Err(TxDoesNotExists)
  }

  function TxidOf(e: Entry): Txid { e.txid }

  function TxOutcome(decode: string -> Option<Transaction>, rs: seq<Response>, id: ReqId): Result<Transaction> {
    if rs == [] then Err(WrongResponse)
    else if SettlesTx(rs[0], id) then Settled(decode, rs[0])
    else TxOutcome(decode, rs[1..], id)
  }

  function HistoryOutcome(rs: seq<Response>, id: ReqId): Result<seq<Txid>> {
    if rs == [] then Err(WrongResponse)
    else if SettlesHistory(rs[0], id) then Ok(Map(TxidOf, rs[0].history))
    else HistoryOutcome(rs[1..], id)
  }

  /** The answers are what the raw ones read as, each of them, against this index. */
  ghost predicate ReadAs(raws: seq<Raw>, index: Index, answers: seq<Response>) {
    && |answers| == |raws|
    && forall i :: 0 <= i < |raws| ==> TryParse(raws[i], index) == Some(answers[i])
  }

  /** An exchange succeeds exactly if the request was sent, and every answer received could be read while
      the request was in the index. Its id is the next one. */
  lemma AskedOutcome(server: Server, s: State, query: Query, answers: seq<Response>)
    ensures Asked(server, s, query).0.lastId == (s.lastId + 1) % U64_LIMIT
              && Asked(server, s, query).0.turn == s.turn + 1
    ensures Asked(server, s, query).1 == Some(answers) <==>
              && server.exchanges(s.turn).sendOk && server.exchanges(s.turn).received.Some?
              && var id: ReqId := (s.lastId + 1) % U64_LIMIT;
                 ReadAs(server.exchanges(s.turn).received.value, s.index[id := Request(id, query)], answers)
  {
    var exchange, id: ReqId := server.exchanges(s.turn), (s.lastId + 1) % U64_LIMIT;
    if exchange.received.Some? {
      AnswersAre(exchange.received.value, s.index[id := Request(id, query)], answers);
    }
  }

  lemma AnswersAre(raws: seq<Raw>, index: Index, answers: seq<Response>)
    ensures Answers(raws, index) == Some(answers) <==> ReadAs(raws, index, answers)
  {
    if ReadAs(raws, index, answers) {
      assert Answers(raws, index).Some?;
      assert Answers(raws, index).value == answers;
    }
  }

  /** The first answer that settles a request decides, whatever else is in the batch; a batch without
      one is a wrong response. */
  lemma {:induction false} FirstTxDecides(decode: string -> Option<Transaction>, rs: seq<Response>, i: nat, id: ReqId)
    requires i <= |rs| && forall j :: 0 <= j < i ==> !SettlesTx(rs[j], id)
    ensures i == |rs| ==> TxOutcome(decode, rs, id) == Err(WrongResponse)
    ensures i < |rs| && SettlesTx(rs[i], id) ==> TxOutcome(decode, rs, id) == Settled(decode, rs[i])
  {
    if i > 0 {
      FirstTxDecides(decode, rs[1..], i - 1, id);
    }
  }

  lemma {:induction false} FirstHistoryDecides(rs: seq<Response>, i: nat, id: ReqId)
    requires i <= |rs| && forall j :: 0 <= j < i ==> !SettlesHistory(rs[j], id)
    ensures i == |rs| ==> HistoryOutcome(rs, id) == Err(WrongResponse)
    ensures i < |rs| && SettlesHistory(rs[i], id) ==> HistoryOutcome(rs, id) == Ok(Map(TxidOf, rs[i].history))
  {
    if i > 0 {
      FirstHistoryDecides(rs[1..], i - 1, id);
    }
  }

  function Got(server: Server, s: State, txid: Txid): (State, Result<Transaction>) {
    var (s', answers) := Asked(server, s, ElectrumResponse.GetTx(txid));
    (s', if answers.None? then Err(Electrum) else TxOutcome(server.decode, answers.value, s'.lastId))
  }

  function Listed(server: Server, s: State, script: Script): (State, Result<seq<Txid>>) {
    var (s', answers) := Asked(server, s, GetHistory(server.hash(script)));
    (s', if answers.None? then Err(Electrum) else HistoryOutcome(answers.value, s'.lastId))
  }

  /** The answer settles the transaction request, and gives this result: the transaction it encodes, or an
      error if it does not decode or the server reports one. */
  ghost predicate SettlesAs(decode: string -> Option<Transaction>, r: Response, id: ReqId,
      result: Result<Transaction>) {
    match r
    case TxGet(i, RawTx(hex)) =>
      i == id && if decode(hex).Some? then result == Ok(decode(hex).value) else result == Err(TxParsing)
    case ErrorResponse(i) => i == id && result == Err(TxDoesNotExists)
    case _ => false
  }

  /** Exactly how a transaction request turns out: no exchange, an answer of which none settles it, or the
      first that does. */
  lemma GotOutcome(server: Server, s: State, txid: Txid, answers: seq<Response>, i: nat)
    requires i <= |answers| && forall j :: 0 <= j < i ==>
              forall r :: !SettlesAs(server.decode, answers[j], Got(server, s, txid).0.lastId, r)
    ensures var (s', r) := Got(server, s, txid);
            && (Asked(server, s, ElectrumResponse.GetTx(txid)).1 == None ==> r == Err(Electrum))
            && (Asked(server, s, ElectrumResponse.GetTx(txid)).1 == Some(answers) ==>
                  && (i == |answers| ==> r == Err(WrongResponse))
                  && (forall x :: i < |answers| && SettlesAs(server.decode, answers[i], s'.lastId, x) ==> r == x))
  {
    var id := Got(server, s, txid).0.lastId;
    forall j | 0 <= j < i
      ensures !SettlesTx(answers[j], id)
    {
      assert SettlesTx(answers[j], id) ==> SettlesAs(server.decode, answers[j], id, Settled(server.decode, answers[j]));
    }
    FirstTxDecides(server.decode, answers, i, id);
  }

  /** Exactly how a history request turns out: it asks for the hash of the script, and the first history
      with its id decides. */
  lemma ListedOutcome(server: Server, s: State, script: Script, answers: seq<Response>, i: nat)
    requires i <= |answers|
    requires forall j :: 0 <= j < i && answers[j].SHGetHistory? ==>
              answers[j].historyId != Listed(server, s, script).0.lastId
    ensures var (s', r) := Listed(server, s, script);
            && (Asked(server, s, GetHistory(server.hash(script))).1 == None ==> r == Err(Electrum))
            && (Asked(server, s, GetHistory(server.hash(script))).1 == Some(answers) ==>
                  && (i == |answers| ==> r == Err(WrongResponse))
                  && (i < |answers| && answers[i].SHGetHistory? && answers[i].historyId == s'.lastId ==>
                        && r.Ok? && |r.value| == |answers[i].history|
                        && forall j :: 0 <= j < |r.value| ==> r.value[j] == answers[i].history[j].txid))
  {
    FirstHistoryDecides(answers, i, Listed(server, s, script).0.lastId);
  }

  function Prefixed<T>(before: seq<T>, rest: Result<seq<T>>): Result<seq<T>> {
    if rest.Err? then rest else Ok(before + rest.value)
  }

  /** One request per transaction, in order; the first failure ends it. */
  function Fetched(server: Server, s: State, txids: seq<Txid>): (r: (State, Result<seq<Transaction>>))
    ensures r.1.Ok? ==> |r.1.value| == |txids|
    decreases |txids|
  {
    if txids == [] then (s, Ok([]))
    else
      var (s', tx) := Got(server, s, txids[0]);
      if tx.Err? then (s', Err(tx.error))
      else var (s'', rest) := Fetched(server, s', txids[1..]); (s'', Prefixed([tx.value], rest))
  }

  type Found = (TxOut, OutPoint)

  /** The outputs of a transaction, from output `v` on, that pay to `script`. */
  function CoinsOf(txid: Txid, outs: seq<TxOut>, script: Script, v: nat): seq<Found>
    requires v <= |outs|
    decreases |outs| - v
  {
    if v == |outs| then []
    else (if outs[v].scriptPubkey == script then [(outs[v], OutPoint(txid, v % U32_LIMIT))] else [])
         + CoinsOf(txid, outs, script, v + 1)
  }

  /** The coins of all fetched transactions, in the order of the history. */
  function AllCoins(txids: seq<Txid>, txs: seq<Transaction>, script: Script): seq<Found>
    requires |txids| == |txs|
  {
    if txids == [] then [] else CoinsOf(txids[0], txs[0].output, script, 0) + AllCoins(txids[1..], txs[1..], script)
  }

  /** The transactions by txid; a txid the history repeats keeps the last one fetched for it. */
  function Collected(txids: seq<Txid>, txs: seq<Transaction>): map<Txid, Transaction>
    requires |txids| == |txs|
  {
    if txids == [] then map[]
    else var n := |txids| - 1; Collected(txids[..n], txs[..n])[txids[n] := txs[n]]
  }

  /** Coin discovery: the history first, then every transaction in it. */
  function Discovered(server: Server, s: State, script: Script): (State, Result<(seq<Found>, map<Txid, Transaction>)>) {
    var (s', history) := Listed(server, s, script);
    if history.Err? then (s', Err(history.error))
    else
      var (s'', txs) := Fetched(server, s', history.value);
      (s'', if txs.Err? then Err(txs.error)
            else Ok((AllCoins(history.value, txs.value, script), Collected(history.value, txs.value))))
  }

  /** The states before each exchange, one request after the other. */
  ghost predicate Chained(server: Server, s: State, txids: seq<Txid>, states: seq<State>) {
    && |states| == |txids| + 1 && states[0] == s
    && forall i: nat :: i < |txids| ==> ChainedAt(server, txids, states, i)
  }

  ghost predicate ChainedAt(server: Server, txids: seq<Txid>, states: seq<State>, i: nat) {
    i < |txids| && i + 1 < |states| && states[i + 1] == Got(server, states[i], txids[i]).0
  }

  ghost predicate Succeeds(server: Server, txids: seq<Txid>, states: seq<State>, i: nat) {
    i < |txids| && i < |states| && Got(server, states[i], txids[i]).1.Ok?
  }

  /** Exchange `i` is the first to fail. */
  ghost predicate StopsAt(server: Server, txids: seq<Txid>, states: seq<State>, i: nat, e: Error) {
    && i < |txids| && i < |states| && Got(server, states[i], txids[i]).1 == Err(e)
    && forall j: nat :: j < i ==> Succeeds(server, txids, states, j)
  }

  /** The transactions are fetched one after the other: each is the outcome of the exchange of its turn,
      and the first failure is the failure of all. */
  lemma {:induction false} FetchedEach(server: Server, s: State, txids: seq<Txid>) returns (states: seq<State>)
    ensures Chained(server, s, txids, states)
    ensures var r := Fetched(server, s, txids).1;
            && (r.Ok? ==> forall i: nat :: i < |txids| ==>
                  Succeeds(server, txids, states, i) && Got(server, states[i], txids[i]).1.value == r.value[i])
            && (r.Err? ==> exists i: nat :: StopsAt(server, txids, states, i, r.error))
    decreases |txids|
  {
    if txids == [] {
      states := [s];
    } else {
      var s1, tail := Got(server, s, txids[0]).0, txids[1..];
      var rest := FetchedEach(server, s1, tail);
      states := [s] + rest;
      forall i: nat | i < |txids|
        ensures ChainedAt(server, txids, states, i)
      {
        assert i > 0 ==> ChainedAt(server, tail, rest, i - 1);
      }
      FetchedFurther(server, s, txids, rest);
    }
  }

  lemma FetchedFurther(server: Server, s: State, txids: seq<Txid>, rest: seq<State>)
    requires txids != [] && Chained(server, Got(server, s, txids[0]).0, txids[1..], rest)
    requires var r := Fetched(server, Got(server, s, txids[0]).0, txids[1..]).1;
             && (r.Ok? ==> forall i: nat :: i < |txids| - 1 ==>
                   Succeeds(server, txids[1..], rest, i) && Got(server, rest[i], txids[1..][i]).1.value == r.value[i])
             && (r.Err? ==> exists i: nat :: StopsAt(server, txids[1..], rest, i, r.error))
    ensures var r, states := Fetched(server, s, txids).1, [s] + rest;
            && (r.Ok? ==> forall i: nat :: i < |txids| ==>
                  Succeeds(server, txids, states, i) && Got(server, states[i], txids[i]).1.value == r.value[i])
            && (r.Err? ==> exists i: nat :: StopsAt(server, txids, states, i, r.error))
  {
    var states, tail := [s] + rest, txids[1..];
    var first, more := Got(server, s, txids[0]).1, Fetched(server, Got(server, s, txids[0]).0, tail).1;
    assert forall i: nat :: i < |tail| ==> states[i + 1] == rest[i] && txids[i + 1] == tail[i];
    if first.Err? {
      assert StopsAt(server, txids, states, 0, first.error);
    } else if more.Err? {
      var i: nat :| StopsAt(server, tail, rest, i, more.error);
      forall j: nat | j < i + 1
        ensures Succeeds(server, txids, states, j)
      {
        assert j > 0 ==> Succeeds(server, tail, rest, j - 1);
      }
      assert StopsAt(server, txids, states, i + 1, more.error);
    } else {
      forall i: nat | i < |txids|
        ensures Succeeds(server, txids, states, i)
        ensures Got(server, states[i], txids[i]).1.value == Fetched(server, s, txids).1.value[i]
      {
        assert i > 0 ==> Succeeds(server, tail, rest, i - 1);
      }
    }
  }

  /** The collected map holds for each listed txid the transaction fetched last for it. */
  lemma {:induction false} CollectedLast(txids: seq<Txid>, txs: seq<Transaction>, txid: Txid)
    requires |txids| == |txs|
    ensures txid in Collected(txids, txs) <==> txid in txids
    ensures txid in txids ==>
              exists i :: && 0 <= i < |txids| && txids[i] == txid && Collected(txids, txs)[txid] == txs[i]
                          && forall j :: i < j < |txids| ==> txids[j] != txid
  {
    if txids != [] {
      var n := |txids| - 1;
      CollectedLast(txids[..n], txs[..n], txid);
      assert txids == txids[..n] + [txids[n]];
    }
  }

  /** Output `k` of the transaction listed under `txid` pays to the script, and `coin` is that output. */
  predicate Pays(txid: Txid, outs: seq<TxOut>, script: Script, k: nat, coin: Found) {
    k < |outs| && outs[k].scriptPubkey == script && coin == (outs[k], OutPoint(txid, k % U32_LIMIT))
  }

  lemma {:induction false} CoinsSound(txid: Txid, outs: seq<TxOut>, script: Script, v: nat, coin: Found)
    requires v <= |outs| && coin in CoinsOf(txid, outs, script, v)
    ensures exists k: nat :: Pays(txid, outs, script, k, coin)
    decreases |outs| - v
  {
    if Pays(txid, outs, script, v, coin) {
    } else {
      CoinsSound(txid, outs, script, v + 1, coin);
    }
  }

  lemma {:induction false} CoinsComplete(txid: Txid, outs: seq<TxOut>, script: Script, v: nat, k: nat, coin: Found)
    requires v <= k && Pays(txid, outs, script, k, coin)
    ensures coin in CoinsOf(txid, outs, script, v)
    decreases k - v
  {
    if v < k {
      CoinsComplete(txid, outs, script, v + 1, k, coin);
    }
  }

  ghost predicate Increasing(least: nat, coins: seq<Found>) {
    && (forall i :: 0 <= i < |coins| ==> least <= coins[i].1.vout)
    && (forall i, j :: 0 <= i < j < |coins| ==> coins[i].1.vout < coins[j].1.vout)
  }

  /** Output numbers increase along the coins of one transaction, so none is reported twice. */
  lemma {:induction false} CoinsInOrder(txid: Txid, outs: seq<TxOut>, script: Script, v: nat)
    requires v <= |outs| <= U32_LIMIT
    ensures Increasing(v, CoinsOf(txid, outs, script, v))
    decreases |outs| - v
  {
    if v < |outs| {
      CoinsInOrder(txid, outs, script, v + 1);
      NextCoin(txid, outs, script, v);
      IncreasingNext(
        OutPoint(txid, v), outs[v], v, CoinsOf(txid, outs, script, v + 1), CoinsOf(txid, outs, script, v));
    }
  }

  lemma NextCoin(txid: Txid, outs: seq<TxOut>, script: Script, v: nat)
    requires v < |outs| <= U32_LIMIT
    ensures var rest := CoinsOf(txid, outs, script, v + 1);
            CoinsOf(txid, outs, script, v)
            == if outs[v].scriptPubkey == script then [(outs[v], OutPoint(txid, v))] + rest else rest
  {
    assert v % U32_LIMIT == v;
  }

  lemma IncreasingNext(point: OutPoint, out: TxOut, v: nat, rest: seq<Found>, all: seq<Found>)
    requires point.vout == v && Increasing(v + 1, rest)
    requires all == [(out, point)] + rest || all == rest
    ensures Increasing(v, all)
  {
    forall i, j | 0 <= i < j < |all|
      ensures all[i].1.vout < all[j].1.vout
    {
      if all != rest {
        assert all[j] == rest[j - 1];
        assert i > 0 ==> all[i] == rest[i - 1];
      }
    }
  }

  /** Coin discovery reports exactly the outputs of the fetched transactions that pay to the script. */
  lemma {:induction false} DiscoveryExact(txids: seq<Txid>, txs: seq<Transaction>, script: Script, coin: Found)
    requires |txids| == |txs|
    ensures coin in AllCoins(txids, txs, script) <==>
              exists i: nat, k: nat :: i < |txs| && Pays(txids[i], txs[i].output, script, k, coin)
  {
    if txids != [] {
      var ids, ts := txids[1..], txs[1..];
      DiscoveryExact(ids, ts, script, coin);
      if coin in CoinsOf(txids[0], txs[0].output, script, 0) {
        CoinsSound(txids[0], txs[0].output, script, 0, coin);
      }
      if coin in AllCoins(ids, ts, script) {
        var i: nat, k: nat :| i < |ts| && Pays(ids[i], ts[i].output, script, k, coin);
        assert i + 1 < |txs| && Pays(txids[i + 1], txs[i + 1].output, script, k, coin);
      }
      if i: nat, k: nat :| i < |txs| && Pays(txids[i], txs[i].output, script, k, coin) {
        if i > 0 {
          assert i - 1 < |ts| && Pays(ids[i - 1], ts[i - 1].output, script, k, coin);
        } else {
          CoinsComplete(txids[0], txs[0].output, script, 0, k, coin);
        }
      }
    }
  }

  /** Whatever a search finds is locked to the script it searched for. */
  lemma DiscoveredPay(server: Server, s: State, script: Script)
    ensures var r := Discovered(server, s, script).1;
            r.Ok? ==> forall i :: 0 <= i < |r.value.0| ==> r.value.0[i].0.scriptPubkey == script
  {
    var (s', history) := Listed(server, s, script);
    if history.Ok? {
      var txs := Fetched(server, s', history.value).1;
      if txs.Ok? {
        forall coin | coin in AllCoins(history.value, txs.value, script)
          ensures coin.0.scriptPubkey == script
        {
          DiscoveryExact(history.value, txs.value, script, coin);
        }
      }
    }
  }

  lemma {:induction false} AllCoinsAppend(txids: seq<Txid>, txs: seq<Transaction>, script: Script, txid: Txid,
      tx: Transaction)
    requires |txids| == |txs|
    ensures AllCoins(txids + [txid], txs + [tx], script)
              == AllCoins(txids, txs, script) + CoinsOf(txid, tx.output, script, 0)
  {
    if txids == [] {
      assert (txids + [txid])[1..] == [] && (txs + [tx])[1..] == [];
    } else {
      assert (txids + [txid])[1..] == txids[1..] + [txid] && (txs + [tx])[1..] == txs[1..] + [tx];
      AllCoinsAppend(txids[1..], txs[1..], script, txid, tx);
    }
  }

  /** Exchange `k` after `s` sent a request under `id`. */
  ghost predicate UsedAt(server: Server, s: State, k: nat, id: ReqId) {
    server.exchanges(s.turn + k).sendOk && id == IdAfter(s.lastId, k + 1)
  }

  ghost predicate Used(server: Server, s: State, n: nat, id: ReqId) {
    exists k: nat :: k < n && UsedAt(server, s, k, id)
  }

  lemma IdsCompose(last: ReqId, k: nat)
    ensures IdAfter(IdAfter(last, 1), k) == IdAfter(last, k + 1)
  {}

  lemma UsedStep(server: Server, s: State, s1: State, n: nat, id: ReqId)
    requires s1.turn == s.turn + 1 && s1.lastId == IdAfter(s.lastId, 1)
    ensures Used(server, s, n + 1, id) <==> UsedAt(server, s, 0, id) || Used(server, s1, n, id)
  {
    if k: nat :| 0 < k < n + 1 && UsedAt(server, s, k, id) {
      IdsCompose(s.lastId, k);
      assert UsedAt(server, s1, k - 1, id);
    }
    if k: nat :| k < n && UsedAt(server, s1, k, id) {
      IdsCompose(s.lastId, k + 1);
      assert UsedAt(server, s, k + 1, id);
    }
  }

  /** From `s` to `s'` the client only counted on, and lost exactly the ids it used. */
  ghost predicate Advanced(server: Server, s: State, s': State) {
    && s'.turn >= s.turn && s'.index.Keys <= s.index.Keys
    && s'.lastId == IdAfter(s.lastId, s'.turn - s.turn)
    && (forall id :: id in s'.index ==> s'.index[id] == s.index[id])
    && (forall id :: id in s.index ==> (id in s'.index <==> !Used(server, s, s'.turn - s.turn, id)))
  }

  lemma AskedAdvances(server: Server, s: State, query: Query)
    ensures Advanced(server, s, Asked(server, s, query).0)
  {
    forall id | id in s.index
      ensures Used(server, s, 1, id) <==> UsedAt(server, s, 0, id)
    {
      UsedStep(server, s, Asked(server, s, query).0, 0, id);
    }
  }

  lemma AdvancesCompose(server: Server, s: State, s1: State, s2: State)
    requires Advanced(server, s, s1) && Advanced(server, s1, s2) && s1.turn == s.turn + 1
    ensures Advanced(server, s, s2)
  {
    var n := s2.turn - s1.turn;
    IdsCompose(s.lastId, n);
    forall id | id in s.index
      ensures id in s2.index <==> !Used(server, s, n + 1, id)
    {
      UsedStep(server, s, s1, n, id);
      UsedStep(server, s, s1, 0, id);
    }
  }

  lemma {:induction false} FetchedAdvances(server: Server, s: State, txids: seq<Txid>)
    ensures Advanced(server, s, Fetched(server, s, txids).0)
    decreases |txids|
  {
    if txids != [] {
      AskedAdvances(server, s, ElectrumResponse.GetTx(txids[0]));
      var (s1, tx) := Got(server, s, txids[0]);
      if tx.Ok? {
        FetchedAdvances(server, s1, txids[1..]);
        AdvancesCompose(server, s, s1, Fetched(server, s1, txids[1..]).0);
      }
    }
  }

  /** Coin discovery leaves the index as it was, on every path, exactly if none of the ids it sends
      requests under belonged to a request that was already registered. */
  lemma IndexRestoredIff(server: Server, s: State, script: Script)
    ensures var s' := Discovered(server, s, script).0;
            && s'.turn >= s.turn
            && (s'.index == s.index <==> forall id :: id in s.index ==> !Used(server, s, s'.turn - s.turn, id))
  {
    AskedAdvances(server, s, GetHistory(server.hash(script)));
    var (s1, history) := Listed(server, s, script);
    var s' := Discovered(server, s, script).0;
    if history.Ok? {
      FetchedAdvances(server, s1, history.value);
      AdvancesCompose(server, s, s1, s');
    }
    assert Advanced(server, s, s');
  }

  class Client {
    const server: Server
    var turn: nat
    var index: Index
    var lastId: ReqId

    constructor (server: Server)
      ensures this.server == server && Now() == State(map[], 0, 0)
    {
      this.server, turn, index, lastId := server, 0, map[], 0;
    }

    ghost function Now(): State
      reads this
    {
      State(index, lastId, turn)
    }

    /** Register a request, exchange it for the server's answers and forget it again. */
    method Ask(query: Query) returns (answers: Option<seq<Response>>, id: ReqId)
      modifies this
      ensures (Now(), answers) == Asked(server, old(Now()), query) && id == lastId
    {
      lastId := (lastId + 1) % U64_LIMIT;
      id := lastId;
      var exchange := server.exchanges(turn);
      turn := turn + 1;
      if !exchange.sendOk {
        return None, id;
      }
      index := index[id := Request(id, query)];
      answers := None;
      if exchange.received.Some? {
        answers := ParseBatch(exchange.received.value, index);
      }
      index := index - {id};
      assert index == old(index) - {id};
    }

    method GetTx(txid: Txid) returns (r: Result<Transaction>)
      modifies this
      ensures (Now(), r) == Got(server, old(Now()), txid)
    {
      var answers, id := Ask(ElectrumResponse.GetTx(txid));
      if answers.None? {
        return Err(Electrum);
      }
      var rs := answers.value;
      for i := 0 to |rs|
        invariant TxOutcome(server.decode, rs, id) == TxOutcome(server.decode, rs[i..], id)
      {
        if SettlesTx(rs[i], id) {
          return Settled(server.decode, rs[i]);
        }
      }
      return Err(WrongResponse);
    }

    method GetCoinsTxAt(script: Script) returns (r: Result<seq<Txid>>)
      modifies this
      ensures (Now(), r) == Listed(server, old(Now()), script)
    {
      var answers, id := Ask(GetHistory(server.hash(script)));
      if answers.None? {
        return Err(Electrum);
      }
      var rs := answers.value;
      for i := 0 to |rs|
        invariant HistoryOutcome(rs, id) == HistoryOutcome(rs[i..], id)
      {
        if SettlesHistory(rs[i], id) {
          return Ok(Map(TxidOf, rs[i].history));
        }
      }
      return Err(WrongResponse);
    }

    /** Fetch the transactions of the history one by one, and pick the coins that pay to the script. */
    method GetCoinsAt(script: Script) returns (r: Result<(seq<Found>, map<Txid, Transaction>)>)
      modifies this
      ensures (Now(), r) == Discovered(server, old(Now()), script)
    {
      var history := GetCoinsTxAt(script);
      if history.Err? {
        return Err(history.error);
      }
      r := FetchCoins(history.value, script);
    }

    method FetchCoins(txids: seq<Txid>, script: Script) returns (r: Result<(seq<Found>, map<Txid, Transaction>)>)
      modifies this
      ensures var (s, txs) := Fetched(server, old(Now()), txids);
              && Now() == s
              && r == if txs.Err? then Err(txs.error)
                  else Ok((AllCoins(txids, txs.value, script), Collected(txids, txs.value)))
    {
      var coins, transactions := [], map[];
      ghost var txs: seq<Transaction> := [];
      assert txids[0..] == txids && txids[..0] == [];
      PrefixedNone(Fetched(server, Now(), txids).1);
      for n := 0 to |txids|
        invariant |txs| == n
        invariant var rest := Fetched(server, Now(), txids[n..]);
                  Fetched(server, old(Now()), txids) == (rest.0, Prefixed(txs, rest.1))
        invariant coins == AllCoins(txids[..n], txs, script) && transactions == Collected(txids[..n], txs)
      {
        assert txids[n..][0] == txids[n] && txids[n..][1..] == txids[n + 1..];
        var tx := GetTx(txids[n]);
        if tx.Err? {
          return Err(tx.error);
        }
        var matching := Matching(txids[n], tx.value.output, script);
        AllCoinsAppend(txids[..n], txs, script, txids[n], tx.value);
        assert txids[..n + 1] == txids[..n] + [txids[n]];
        coins := coins + matching;
        transactions := transactions[txids[n] := tx.value];
        CollectedAppend(txids[..n], txs, txids[n], tx.value);
        PrefixedAppend(txs, tx.value, Fetched(server, Now(), txids[n + 1..]).1);
        txs := txs + [tx.value];
      }
      assert txids[..|txids|] == txids && txids[|txids|..] == [];
      assert txs + [] == txs;
      return Ok((coins, transactions));
    }

    method Matching(txid: Txid, outs: seq<TxOut>, script: Script) returns (coins: seq<Found>)
      ensures coins == CoinsOf(txid, outs, script, 0)
    {
      coins := [];
      for v := 0 to |outs|
        invariant coins + CoinsOf(txid, outs, script, v) == CoinsOf(txid, outs, script, 0)
      {
        if outs[v].scriptPubkey == script {
          coins := coins + [(outs[v], OutPoint(txid, v % U32_LIMIT))];
        }
      }
    }
  }

  lemma CollectedAppend(txids: seq<Txid>, txs: seq<Transaction>, txid: Txid, tx: Transaction)
    requires |txids| == |txs|
    ensures Collected(txids + [txid], txs + [tx]) == Collected(txids, txs)[txid := tx]
  {
    assert (txids + [txid])[..|txids|] == txids && (txs + [tx])[..|txs|] == txs;
  }

  lemma PrefixedNone<T>(rest: Result<seq<T>>)
    ensures Prefixed([], rest) == rest
  {
    if rest.Ok? {
      assert [] + rest.value == rest.value;
    }
  }

  lemma PrefixedAppend<T>(before: seq<T>, x: T, rest: Result<seq<T>>)
    ensures Prefixed(before + [x], rest) == Prefixed(before, Prefixed([x], rest))
  {
    if rest.Ok? {
      assert before + [x] + rest.value == before + ([x] + rest.value);
    }
  }
}
