/** The background loop that talks to an electrum server: one batch of requests in flight,
    answers matched to scripts through four tables. */
module ElectrumListener {
  import opened Bitcoin
  import opened ElectrumResponse

  // ---------------------------------------------------------------- the wire discipline

  datatype WireEvent = Sent(batch: seq<Request>) | Answered(responses: seq<Response>)

  /** `responses_matches_requests`: every request of the batch has an answer with its id. */
  predicate Matches(batch: seq<Request>, responses: seq<Response>) {
    forall i :: 0 <= i < |batch| ==> HasAnswer(responses, batch[i].id)
  }

  predicate HasAnswer(responses: seq<Response>, id: ReqId) {
    exists j :: 0 <= j < |responses| && IdOf(responses[j]) == Some(id)
  }

  /** The batch sent but not yet answered in full by one server message. */
  function InFlight(log: seq<WireEvent>): Option<seq<Request>> {
    if log == [] then None
    else match log[|log| - 1]
      case Sent(batch) => Some(batch)
      case Answered(responses) =>
        var before := InFlight(log[..|log| - 1]);
        if before.Some? && Matches(before.value, responses) then None else before
  }

  /** A batch is sent only when none is in flight, or as a repetition of the one in flight. */
  ghost predicate Disciplined(log: seq<WireEvent>) {
    forall k :: 0 <= k < |log| && log[k].Sent? ==>
      InFlight(log[..k]).None? || InFlight(log[..k]) == Some(log[k].batch)
  }

  lemma DisciplinedAppend(log: seq<WireEvent>, e: WireEvent)
    requires Disciplined(log)
    requires e.Sent? ==> InFlight(log).None? || InFlight(log) == Some(e.batch)
    ensures Disciplined(log + [e])
    ensures (log + [e])[..|log|] == log
    ensures InFlight(log + [e]) == match e
                                   case Sent(batch) => Some(batch)
                                   case Answered(responses) =>
                                     if InFlight(log).Some? && Matches(InFlight(log).value, responses) then None
                                     else InFlight(log)
  {
    var log' := log + [e];
    assert log'[..|log|] == log;
    forall k | 0 <= k < |log'| && log'[k].Sent?
      ensures InFlight(log'[..k]).None? || InFlight(log'[..k]) == Some(log'[k].batch)
    {
      assert log'[..k] == log[..k];
      if k == |log| {
        assert log[..k] == log;
      }
    }
  }

  /** The sends form whole batches, each possibly repeated: between two different batches sent one
      after the other, one server message answered every request of the first. */
  lemma {:induction false} NextBatchAfterFullAnswer(log: seq<WireEvent>, i: nat, j: nat) returns (k: nat)
    requires Disciplined(log) && i < j < |log| && log[i].Sent? && log[j].Sent?
    requires log[i].batch != log[j].batch
    requires forall m :: i < m < j ==> log[m].Answered?
    ensures i < k < j && Matches(log[i].batch, log[k].responses)
  {
    assert InFlight(log[..i + 1]) == Some(log[i].batch) by {
      assert log[..i + 1][..i] == log[..i];
    }
    k := i + 1;
    while k < j && !Matches(log[i].batch, log[k].responses)
      invariant i < k <= j
      invariant InFlight(log[..k]) == Some(log[i].batch)
    {
      assert log[..k + 1][..k] == log[..k];
      k := k + 1;
    }
  }

  // ---------------------------------------------------------------- tables and attribution

  type Hasher = Script -> ScriptHash

  /** The four tables. `answered` remembers which history requests have had an answer since they
      were registered. */
  datatype Tables = Tables(
    index: Index, watched: map<ReqId, ScriptHash>, shSpk: map<ScriptHash, Script>,
    reqidSpk: map<ReqId, Script>, answered: set<ReqId>)

  /** Every lookup the loop makes for a subscribe answer succeeds and leads to the right script; a
      history request is found exactly until it is answered. */
  ghost predicate TablesOk(t: Tables, hash: Hasher) {
    && (forall id :: id in t.index && t.index[id].query.Subscribe? ==>
        id in t.watched && t.watched[id] == t.index[id].query.sh)
    && (forall id :: id in t.watched ==> t.watched[id] in t.shSpk)
    && (forall sh :: sh in t.shSpk ==> hash(t.shSpk[sh]) == sh)
    && (forall id :: id in t.index && t.index[id].query.GetHistory? ==> (id in t.reqidSpk <==> id !in t.answered))
    && (forall id :: id in t.index && t.index[id].query.GetHistory? && id in t.reqidSpk ==>
          hash(t.reqidSpk[id]) == t.index[id].query.sh)
  }

  function WithSubscribe(t: Tables, id: ReqId, spk: Script, sh: ScriptHash): Tables {
    t.(index := t.index[id := Request(id, Subscribe(sh))], watched := t.watched[id := sh], shSpk := t.shSpk[sh := spk])
  }

  function WithHistory(t: Tables, id: ReqId, spk: Script, sh: ScriptHash): Tables {
    t.(index := t.index[id := Request(id, GetHistory(sh))], reqidSpk := t.reqidSpk[id := spk],
        answered := t.answered - {id})
  }

  function WithTx(t: Tables, id: ReqId, txid: Txid): Tables {
    t.(index := t.index[id := Request(id, GetTx(txid))])
  }

  /** Registering keeps the tables consistent, even when the id wrapped around and replaces an
      older request. */
  lemma SubscribeKeepsTables(t: Tables, hash: Hasher, id: ReqId, spk: Script)
    requires TablesOk(t, hash)
    ensures TablesOk(WithSubscribe(t, id, spk, hash(spk)), hash)
  {}

  lemma HistoryKeepsTables(t: Tables, hash: Hasher, id: ReqId, spk: Script)
    requires TablesOk(t, hash)
    ensures TablesOk(WithHistory(t, id, spk, hash(spk)), hash)
  {}

  lemma TxKeepsTables(t: Tables, hash: Hasher, id: ReqId, txid: Txid)
    requires TablesOk(t, hash)
    ensures TablesOk(WithTx(t, id, txid), hash)
  {}

  /** The history answer to `id` has been taken. */
  function WithAnswered(t: Tables, id: ReqId): Tables {
    t.(reqidSpk := t.reqidSpk - {id}, answered := t.answered + {id})
  }

  lemma AnsweredKeepsTables(t: Tables, hash: Hasher, id: ReqId)
    requires TablesOk(t, hash)
    ensures TablesOk(WithAnswered(t, id), hash)
  {}

  /** The script hash a status is about. */
  function StatusHash(r: Response, index: Index): Option<ScriptHash> {
    match r
    case SHSubscribe(id, _) => if id in index && index[id].query.Subscribe? then Some(index[id].query.sh) else None
    case SHNotification(sh, _) => Some(sh)
    case _ => None
  }

  function StatusOf(r: Response): Option<string> {
    match r
    case SHSubscribe(_, status) => status
    case SHNotification(_, status) => status
    case _ => None
  }

  function HistoryHash(r: Response, index: Index): Option<ScriptHash> {
    match r
    case SHGetHistory(id, _) => if id in index && index[id].query.GetHistory? then Some(index[id].query.sh) else None
    case _ => None
  }

  datatype Seen = Seen(txid: Txid, height: Option<u64>)

  /** Unconfirmed transactions have height 0 or -1; other heights are cut to 64 bits. */
  function Heights(entries: seq<Entry>): (r: seq<Seen>)
    ensures |r| == |entries|
  {
    if entries == [] then []
    else
      var e := entries[0];
      [Seen(e.txid, if e.height < 1 then None else Some(e.height % U64_LIMIT))] + Heights(entries[1..])
  }

  /** The answer makes the loop panic: a history whose request was answered before, a notification
      about a script never subscribed to, or a transaction that does not decode. */
  predicate Fatal(t: Tables, decode: string -> Option<Transaction>, r: Response) {
    match r
    case SHGetHistory(id, _) => id in t.answered
    case SHNotification(sh, _) => sh !in t.shSpk
    case TxGet(_, RawTx(hex)) => decode(hex).None?
    case _ => false
  }

  /** The tables after the first `n` answers. */
  function TablesAfter(t: Tables, rs: seq<Response>, n: nat): Tables
    requires n <= |rs|
  {
    if n == 0 then t
    else
      var before := TablesAfter(t, rs, n - 1);
      if rs[n - 1].SHGetHistory? then WithAnswered(before, rs[n - 1].historyId) else before
  }

  lemma {:induction false} TablesAfterFacts(t: Tables, rs: seq<Response>, n: nat, hash: Hasher)
    requires n <= |rs| && TablesOk(t, hash)
    ensures TablesOk(TablesAfter(t, rs, n), hash)
    ensures TablesAfter(t, rs, n).index == t.index && TablesAfter(t, rs, n).shSpk == t.shSpk
    ensures forall id :: id in TablesAfter(t, rs, n).answered <==>
              id in t.answered || exists j :: 0 <= j < n && rs[j].SHGetHistory? && rs[j].historyId == id
  {
    if n > 0 {
      TablesAfterFacts(t, rs, n - 1, hash);
      if rs[n - 1].SHGetHistory? {
        AnsweredKeepsTables(TablesAfter(t, rs, n - 1), hash, rs[n - 1].historyId);
      }
    }
  }

  /** Exactly when an answer in a batch of answers is fatal, in terms of the batch alone and of what
      had been answered before it. */
  lemma FatalIff(t: Tables, rs: seq<Response>, n: nat, hash: Hasher, decode: string -> Option<Transaction>)
    requires n < |rs| && TablesOk(t, hash)
    ensures Fatal(TablesAfter(t, rs, n), decode, rs[n]) <==>
              match rs[n]
              case SHGetHistory(id, _) =>
                id in t.answered || exists j :: 0 <= j < n && rs[j].SHGetHistory? && rs[j].historyId == id
              case SHNotification(sh, _) => sh !in t.shSpk
              case TxGet(_, RawTx(hex)) => decode(hex).None?
              case _ => false
  {
    TablesAfterFacts(t, rs, n, hash);
  }

  /** The statuses to report after the first `n` answers. */
  function StatusesAfter(t: Tables, rs: seq<Response>, n: nat): map<Script, Option<string>>
    requires n <= |rs|
  {
    if n == 0 then map[]
    else
      var before, sh := StatusesAfter(t, rs, n - 1), StatusHash(rs[n - 1], t.index);
      if sh.Some? && sh.value in t.shSpk then before[t.shSpk[sh.value] := StatusOf(rs[n - 1])] else before
  }

  /** The histories to report after the first `n` answers. */
  function HistoriesAfter(t: Tables, rs: seq<Response>, n: nat): map<Script, seq<Seen>>
    requires n <= |rs|
  {
    if n == 0 then map[]
    else
      var before, now := HistoriesAfter(t, rs, n - 1), TablesAfter(t, rs, n - 1).reqidSpk;
      match rs[n - 1]
      case SHGetHistory(id, history) => if id in now then before[now[id] := Heights(history)] else before
      case _ => before
  }

  function TxsAfter(decode: string -> Option<Transaction>, rs: seq<Response>, n: nat): seq<Transaction>
    requires n <= |rs|
  {
    if n == 0 then []
    else
      var before := TxsAfter(decode, rs, n - 1);
      match rs[n - 1]
      case TxGet(_, RawTx(hex)) => if decode(hex).Some? then before + [decode(hex).value] else before
      case _ => before
  }

  function ErrorsAfter(rs: seq<Response>, n: nat): seq<CoinResponse>
    requires n <= |rs|
  {
    if n == 0 then [] else ErrorsAfter(rs, n - 1) + if rs[n - 1].ErrorResponse? then [ErrorMessage] else []
  }

  /** What taking one answer adds to the tables and to the reports. */
  ghost predicate Taken(
    decode: string -> Option<Transaction>, r: Response,
    t: Tables, statuses: map<Script, Option<string>>, histories: map<Script, seq<Seen>>, txs: seq<Transaction>,
    t': Tables, statuses': map<Script, Option<string>>, histories': map<Script, seq<Seen>>, txs': seq<Transaction>)
  {
    var sh := StatusHash(r, t.index);
    && t' == (if r.SHGetHistory? then WithAnswered(t, r.historyId) else t)
    && statuses' == (if sh.Some? && sh.value in t.shSpk then statuses[t.shSpk[sh.value] := StatusOf(r)] else statuses)
    && histories' == (if r.SHGetHistory? && r.historyId in t.reqidSpk
                      then histories[t.reqidSpk[r.historyId] := Heights(r.history)] else histories)
    && txs' == (if r.TxGet? && r.tx.RawTx? && decode(r.tx.hex).Some? then txs + [decode(r.tx.hex).value] else txs)
  }

  /** The tables and the reports after the first `n` answers. */
  ghost predicate Gathered(
    decode: string -> Option<Transaction>, start: Tables, rs: seq<Response>, n: nat,
    t: Tables, statuses: map<Script, Option<string>>, histories: map<Script, seq<Seen>>, txs: seq<Transaction>)
    requires n <= |rs|
  {
    && t == TablesAfter(start, rs, n) && statuses == StatusesAfter(start, rs, n)
    && histories == HistoriesAfter(start, rs, n) && txs == TxsAfter(decode, rs, n)
  }

  lemma GatheredStep(
    decode: string -> Option<Transaction>, start: Tables, rs: seq<Response>, n: nat,
    t: Tables, statuses: map<Script, Option<string>>, histories: map<Script, seq<Seen>>, txs: seq<Transaction>,
    t': Tables, statuses': map<Script, Option<string>>, histories': map<Script, seq<Seen>>, txs': seq<Transaction>)
    requires n < |rs| && Gathered(decode, start, rs, n, t, statuses, histories, txs)
    requires t.index == start.index && t.shSpk == start.shSpk
    requires Taken(decode, rs[n], t, statuses, histories, txs, t', statuses', histories', txs')
    ensures Gathered(decode, start, rs, n + 1, t', statuses', histories', txs')
  {}

  /** The last of the first `n` answers that is about the script hash `sh`. */
  ghost predicate Latest(rs: seq<Response>, n: nat, index: Index, sh: ScriptHash, i: int)
    requires n <= |rs|
  {
    0 <= i < n && StatusHash(rs[i], index) == Some(sh) && forall j :: i < j < n ==> StatusHash(rs[j], index) != Some(sh)
  }

  /** Every reported status is the latest one received about the script it is reported for. */
  lemma {:induction false} StatusesAttributed(t: Tables, rs: seq<Response>, n: nat, hash: Hasher, spk: Script)
    requires n <= |rs| && TablesOk(t, hash) && spk in StatusesAfter(t, rs, n)
    ensures hash(spk) in t.shSpk && t.shSpk[hash(spk)] == spk
    ensures exists i :: Latest(rs, n, t.index, hash(spk), i) && StatusesAfter(t, rs, n)[spk] == StatusOf(rs[i])
  {
    var sh := StatusHash(rs[n - 1], t.index);
    if sh.Some? && sh.value in t.shSpk && t.shSpk[sh.value] == spk {
      assert Latest(rs, n, t.index, hash(spk), n - 1);
    } else {
      StatusesAttributed(t, rs, n - 1, hash, spk);
      var i :| Latest(rs, n - 1, t.index, hash(spk), i) && StatusesAfter(t, rs, n - 1)[spk] == StatusOf(rs[i]);
      assert Latest(rs, n, t.index, hash(spk), i);
    }
  }

  /** Every answer about a known script is reported. */
  lemma {:induction false} StatusesComplete(t: Tables, rs: seq<Response>, n: nat, i: nat)
    requires i < n <= |rs| && StatusHash(rs[i], t.index).Some? && StatusHash(rs[i], t.index).value in t.shSpk
    ensures t.shSpk[StatusHash(rs[i], t.index).value] in StatusesAfter(t, rs, n)
  {
    if i < n - 1 {
      StatusesComplete(t, rs, n - 1, i);
    }
  }

  /** Every reported history was received in answer to a request about that very script. */
  lemma {:induction false} HistoriesAttributed(t: Tables, rs: seq<Response>, n: nat, hash: Hasher, spk: Script)
    requires n <= |rs| && TablesOk(t, hash) && spk in HistoriesAfter(t, rs, n)
    requires forall i :: 0 <= i < n ==> Fits(rs[i], t.index)
    ensures exists i :: 0 <= i < n && HistoryHash(rs[i], t.index) == Some(hash(spk))
                        && HistoriesAfter(t, rs, n)[spk] == Heights(rs[i].history)
  {
    TablesAfterFacts(t, rs, n - 1, hash);
    var now := TablesAfter(t, rs, n - 1).reqidSpk;
    if rs[n - 1].SHGetHistory? && rs[n - 1].historyId in now && now[rs[n - 1].historyId] == spk {
      assert HistoryHash(rs[n - 1], t.index) == Some(hash(spk));
    } else {
      HistoriesAttributed(t, rs, n - 1, hash, spk);
    }
  }

  // ---------------------------------------------------------------- the loop

  datatype CoinRequest = SubscribeTo(subscribed: seq<Script>) | HistoryOf(asked: seq<Script>)
      | TxsOf(txids: seq<Txid>) | Stop

  datatype CoinResponse =
    | Statuses(statuses: map<Script, Option<string>>)
    | Histories(histories: map<Script, seq<Seen>>)
    | Txs(txs: seq<Transaction>)
    | StoppedResponse
    | ErrorMessage

  datatype Polled = Asked(request: CoinRequest) | Nothing | Disconnected
  datatype Reply = Lines(raws: seq<Raw>) | Silence | ReadError

  /** What one pass through the loop meets: the consumer's request, how often sending the batch
      fails, the server's message, whether a resend succeeds, and whether the consumer listens. */
  datatype Turn = Turn(polled: Polled, failures: nat, reply: Reply, resendOk: bool, open: bool)

  datatype Status = Running | Returned | Panicked

  /** How many ids a consumer's request takes. */
  function Size(request: CoinRequest): nat {
    match request
    case SubscribeTo(spks) => |spks|
    case HistoryOf(spks) => |spks|
    case TxsOf(txids) => |txids|
    case Stop => 0
  }

  /** Request `k` of the batch for a consumer's request, when `last` was the last id taken. */
  function RequestAt(last: ReqId, request: CoinRequest, hash: Hasher, k: nat): Request
    requires k < Size(request)
  {
    var query := match request
      case SubscribeTo(spks) => Subscribe(hash(spks[k]))
      case HistoryOf(spks) => GetHistory(hash(spks[k]))
      case TxsOf(txids) => GetTx(txids[k]);
    Request(IdAfter(last, k + 1), query)
  }

  function BatchFor(last: ReqId, request: CoinRequest, hash: Hasher): seq<Request> {
    seq(Size(request), k requires 0 <= k < Size(request) => RequestAt(last, request, hash, k))
  }

  /** The tables after the first `n` parts of a consumer's request have been registered. */
  function Registered(t: Tables, last: ReqId, request: CoinRequest, hash: Hasher, n: nat): Tables
    requires n <= Size(request)
  {
    if n == 0 then t
    else
      var before, id := Registered(t, last, request, hash, n - 1), IdAfter(last, n);
      match request
      case SubscribeTo(spks) => WithSubscribe(before, id, spks[n - 1], hash(spks[n - 1]))
      case HistoryOf(spks) => WithHistory(before, id, spks[n - 1], hash(spks[n - 1]))
      case TxsOf(txids) => WithTx(before, id, txids[n - 1])
  }

  /** Registering any request keeps the tables consistent. */
  lemma {:induction false} RegisteredKeepsTables(t: Tables, last: ReqId, request: CoinRequest, hash: Hasher, n: nat)
    requires n <= Size(request) && TablesOk(t, hash)
    ensures TablesOk(Registered(t, last, request, hash, n), hash)
  {
    if n > 0 {
      RegisteredKeepsTables(t, last, request, hash, n - 1);
      var before, id := Registered(t, last, request, hash, n - 1), IdAfter(last, n);
      match request {
        case SubscribeTo(spks) => SubscribeKeepsTables(before, hash, id, spks[n - 1]);
        case HistoryOf(spks) => HistoryKeepsTables(before, hash, id, spks[n - 1]);
        case TxsOf(txids) => TxKeepsTables(before, hash, id, txids[n - 1]);
      }
    }
  }

  /** The errors reported while sending fails `n` times. */
  function Complaints(n: nat): seq<CoinResponse> {
    if n <= 10 then [] else Complaints(n - 1) + [ErrorMessage]
  }

  /** A batch in flight that the server's message does not answer in full is sent again. */
  function Resending(flight: Option<seq<Request>>, rs: seq<Response>): seq<WireEvent> {
    if flight.Some? && !Matches(flight.value, rs) then [Sent(flight.value)] else []
  }

  /** What the request polled in one pass comes to: the batch sent for it, the tables with it
      registered, and the errors reported meanwhile. */
  datatype Uptake = Uptake(batch: seq<Request>, tables: Tables, complaints: seq<CoinResponse>)

  function UptakeOf(turn: Turn, t: Tables, last: ReqId, flight: Option<seq<Request>>, hash: Hasher): Uptake {
    if flight.Some? || !turn.polled.Asked? then Uptake([], t, [])
    else
      var request := turn.polled.request;
      var batch := BatchFor(last, request, hash);
      Uptake(batch, Registered(t, last, request, hash, Size(request)),
             if batch == [] then [] else Complaints(turn.failures))
  }

  /** What is in flight after the server's message. */
  function Settled(flight: Option<seq<Request>>, rs: seq<Response>): Option<seq<Request>> {
    if flight.Some? && Matches(flight.value, rs) then None else flight
  }

  datatype Hearing = Quiet | Unreadable | Readable(responses: seq<Response>)

  function Hear(reply: Reply, index: Index): Hearing {
    match reply
    case Silence => Quiet
    case ReadError => Unreadable
    case Lines(raws) => if Answers(raws, index).Some? then Readable(Answers(raws, index).value) else Unreadable
  }

  function Sending(batch: seq<Request>): seq<WireEvent> {
    if batch == [] then [] else [Sent(batch)]
  }

  /** A consumer that is gone is noticed only when something has to be reported to it. */
  function RequestStatus(request: CoinRequest, failures: nat, open: bool): Status {
    if request.Stop? then if open then Returned else Panicked
    else if Size(request) == 0 || failures <= 10 || open then Running
    else if request.TxsOf? then Returned
    else Panicked
  }

  /** Everything the consumer is told about a readable message. */
  function Told(decode: string -> Option<Transaction>, t: Tables, rs: seq<Response>): seq<CoinResponse> {
    ErrorsAfter(rs, |rs|) + Reports(HistoriesAfter(t, rs, |rs|), StatusesAfter(t, rs, |rs|), TxsAfter(decode, rs, |rs|))
  }

  function Reports(histories: map<Script, seq<Seen>>, statuses: map<Script, Option<string>>,
      txs: seq<Transaction>): seq<CoinResponse> {
    (if histories != map[] then [Histories(histories)] else [])
    + (if statuses != map[] then [Statuses(statuses)] else [])
    + (if txs != [] then [Txs(txs)] else [])
  }

  // ---------------------------------------------------------------- how a pass ends

  /** A batch that must be sent again, and cannot be, is fatal. */
  function SettleStatus(flight: Option<seq<Request>>, rs: seq<Response>, resendOk: bool): Status {
    if flight.Some? && !Matches(flight.value, rs) && !resendOk then Panicked else Running
  }

  /** The status after the first `n` answers: the first one that ends the loop decides. */
  function TakeStatus(t: Tables, decode: string -> Option<Transaction>, rs: seq<Response>, n: nat, open: bool): Status
    requires n <= |rs|
  {
    if n == 0 then Running
    else
      var before := TakeStatus(t, decode, rs, n - 1, open);
      if !before.Running? then before
      else if Fatal(TablesAfter(t, rs, n - 1), decode, rs[n - 1]) then Panicked
      else if rs[n - 1].ErrorResponse? && !open then Returned
      else Running
  }

  lemma {:induction false} EndsForGood(
    t: Tables, decode: string -> Option<Transaction>, rs: seq<Response>, n: nat, m: nat, open: bool)
    requires n <= m <= |rs| && !TakeStatus(t, decode, rs, n, open).Running?
    ensures TakeStatus(t, decode, rs, m, open) == TakeStatus(t, decode, rs, n, open)
  {
    if n < m {
      EndsForGood(t, decode, rs, n, m - 1, open);
    }
  }

  function DeliverStatus(reports: seq<CoinResponse>, open: bool): Status {
    if !open && reports != [] then Panicked else Running
  }

  function GatheredReports(decode: string -> Option<Transaction>, t: Tables, rs: seq<Response>): seq<CoinResponse> {
    Reports(HistoriesAfter(t, rs, |rs|), StatusesAfter(t, rs, |rs|), TxsAfter(decode, rs, |rs|))
  }

  function AnswersStatus(t: Tables, decode: string -> Option<Transaction>, rs: seq<Response>, open: bool): Status {
    var taken := TakeStatus(t, decode, rs, |rs|, open);
    if taken.Running? then DeliverStatus(GatheredReports(decode, t, rs), open) else taken
  }

  /** The consumer asks for a stop, is heard, and listens. */
  predicate Stops(turn: Turn, flight: Option<seq<Request>>) {
    flight.None? && turn.polled == Asked(Stop) && turn.open
  }

  /** What one pass hands to the next. */
  datatype Loop = Loop(tables: Tables, lastId: ReqId, flight: Option<seq<Request>>)

  function ServerStatus(turn: Turn, l: Loop, decode: string -> Option<Transaction>): Status {
    match Hear(turn.reply, l.tables.index)
    case Quiet => Running
    case Unreadable => if turn.open then Running else Returned
    case Readable(rs) =>
      var settled := SettleStatus(l.flight, rs, turn.resendOk);
      if settled.Running? then AnswersStatus(l.tables, decode, rs, turn.open) else settled
  }

  function ConsumerStatus(turn: Turn, flight: Option<seq<Request>>): Status {
    if flight.Some? then Running
    else match turn.polled
      case Asked(request) => RequestStatus(request, turn.failures, turn.open)
      case Nothing => Running
      case Disconnected => Returned
  }

  /** The loop's state when it turns from the consumer to the server. */
  function Midway(turn: Turn, l: Loop, hash: Hasher): Loop {
    var u := UptakeOf(turn, l.tables, l.lastId, l.flight, hash);
    Loop(u.tables,
         if l.flight.None? && turn.polled.Asked? then IdAfter(l.lastId, Size(turn.polled.request)) else l.lastId,
         if u.batch == [] then l.flight else Some(u.batch))
  }

  /** The loop's state after the server's message has been read against the index. */
  function AfterServer(turn: Turn, l: Loop): Loop {
    match Hear(turn.reply, l.tables.index)
    case Readable(rs) => Loop(TablesAfter(l.tables, rs, |rs|), l.lastId, Settled(l.flight, rs))
    case _ => l
  }

  /** What the server's message adds to the wire: itself, and the batch sent again because of it. */
  function ServerWire(turn: Turn, l: Loop): seq<WireEvent> {
    match Hear(turn.reply, l.tables.index)
    case Readable(rs) => [Answered(rs)] + Resending(l.flight, rs)
    case _ => []
  }

  /** What the consumer is told about the server's message. */
  function ServerTold(turn: Turn, l: Loop, decode: string -> Option<Transaction>): seq<CoinResponse> {
    match Hear(turn.reply, l.tables.index)
    case Quiet => []
    case Unreadable => [ErrorMessage]
    case Readable(rs) => Told(decode, l.tables, rs)
  }

  function NextLoop(turn: Turn, l: Loop, hash: Hasher): Loop {
    AfterServer(turn, Midway(turn, l, hash))
  }

  function PassStatus(turn: Turn, l: Loop, hash: Hasher, decode: string -> Option<Transaction>): Status {
    var asked := ConsumerStatus(turn, l.flight);
    if asked.Running? then ServerStatus(turn, Midway(turn, l, hash), decode) else asked
  }

  function LoopAfter(turns: nat -> Turn, l: Loop, hash: Hasher, n: nat): Loop {
    if n == 0 then l else NextLoop(turns(n - 1), LoopAfter(turns, l, hash, n - 1), hash)
  }

  /** The failures to send that one pass reports. */
  function PassComplaints(turn: Turn, l: Loop, hash: Hasher): seq<CoinResponse> {
    UptakeOf(turn, l.tables, l.lastId, l.flight, hash).complaints
  }

  /** The batch that one pass sends first. */
  function PassSends(turn: Turn, l: Loop, hash: Hasher): seq<WireEvent> {
    Sending(UptakeOf(turn, l.tables, l.lastId, l.flight, hash).batch)
  }

  /** What one pass tells the consumer about the server's message. */
  function PassTold(turn: Turn, l: Loop, hash: Hasher, decode: string -> Option<Transaction>): seq<CoinResponse> {
    ServerTold(turn, Midway(turn, l, hash), decode)
  }

  /** The server's message in one pass, with its consequences for the wire. */
  function PassHears(turn: Turn, l: Loop, hash: Hasher): seq<WireEvent> {
    ServerWire(turn, Midway(turn, l, hash))
  }

  /** All that the first `n` passes tell the consumer. */
  function DeliveredBy(
    turns: nat -> Turn, l: Loop, hash: Hasher, decode: string -> Option<Transaction>, n: nat): seq<CoinResponse>
  {
    if n == 0 then []
    else
      var turn, before := turns(n - 1), LoopAfter(turns, l, hash, n - 1);
      DeliveredBy(turns, l, hash, decode, n - 1) + PassComplaints(turn, before, hash)
          + PassTold(turn, before, hash, decode)
  }

  /** All that passes on the wire during the first `n` passes. */
  function WiredBy(turns: nat -> Turn, l: Loop, hash: Hasher, n: nat): seq<WireEvent> {
    if n == 0 then []
    else
      var turn, before := turns(n - 1), LoopAfter(turns, l, hash, n - 1);
      WiredBy(turns, l, hash, n - 1) + PassSends(turn, before, hash) + PassHears(turn, before, hash)
  }

  lemma Regroup<T>(a: seq<T>, b: seq<T>, c: seq<T>, d: seq<T>)
    ensures a + b + c + d == a + (b + c + d)
  {}

  function StatusAfter(turns: nat -> Turn, l: Loop, hash: Hasher, decode: string -> Option<Transaction>,
      n: nat): Status {
    if n == 0 then Running
    else
      var before := StatusAfter(turns, l, hash, decode, n - 1);
      if before.Running? then PassStatus(turns(n - 1), LoopAfter(turns, l, hash, n - 1), hash, decode) else before
  }

  lemma {:induction false} StoppedForGood(
    turns: nat -> Turn, l: Loop, hash: Hasher, decode: string -> Option<Transaction>, n: nat, m: nat)
    requires n <= m && (n == m || !StatusAfter(turns, l, hash, decode, n).Running?)
    ensures StatusAfter(turns, l, hash, decode, m) == StatusAfter(turns, l, hash, decode, n)
  {
    if n < m {
      StoppedForGood(turns, l, hash, decode, n, m - 1);
    }
  }

  class Listener {
    const hash: Hasher
    const decode: string -> Option<Transaction>
    var index: Index
    var lastId: ReqId
    var reqidSpk: map<ReqId, Script>
    var watched: map<ReqId, ScriptHash>
    var shSpk: map<ScriptHash, Script>
    var lastRequest: Option<seq<Request>>
    var delivered: seq<CoinResponse>
    ghost var answered: set<ReqId>
    ghost var wire: seq<WireEvent>

    ghost function Tabs(): Tables
      reads this
    {
      Tables(index, watched, shSpk, reqidSpk, answered)
    }

    ghost function State(): Loop
      reads this
    {
      Loop(Tabs(), lastId, lastRequest)
    }

    ghost predicate Valid()
      reads this
    {
      TablesOk(Tabs(), hash) && Disciplined(wire) && lastRequest == InFlight(wire)
    }

    constructor (hash: Hasher, decode: string -> Option<Transaction>)
      ensures Valid() && this.hash == hash && this.decode == decode && wire == [] && delivered == []
    {
      this.hash, this.decode := hash, decode;
      index, lastId, reqidSpk, watched, shSpk, lastRequest, delivered := map[], 0, map[], map[], map[], None, [];
      answered, wire := {}, [];
    }

    method Register(query: Query) returns (request: Request)
      modifies this`index, this`lastId
      ensures lastId == IdAfter(old(lastId), 1) && request == Request(lastId, query)
      ensures index == old(index)[request.id := request]
    {
      lastId := (lastId + 1) % U64_LIMIT;
      request := Request(lastId, query);
      index := index[request.id := request];
    }

    method SubscribeBatch(spks: seq<Script>) returns (batch: seq<Request>)
      modifies this`index, this`lastId, this`watched, this`shSpk
      ensures Tabs() == Registered(old(Tabs()), old(lastId), SubscribeTo(spks), hash, |spks|)
      ensures batch == BatchFor(old(lastId), SubscribeTo(spks), hash) && lastId == IdAfter(old(lastId), |spks|)
    {
      batch := [];
      for i := 0 to |spks|
        invariant Tabs() == Registered(old(Tabs()), old(lastId), SubscribeTo(spks), hash, i)
        invariant |batch| == i && lastId == IdAfter(old(lastId), i)
        invariant forall j :: 0 <= j < i ==> batch[j] == RequestAt(old(lastId), SubscribeTo(spks), hash, j)
      {
        NextId(old(lastId), i);
        var request := SubscribeOne(spks[i]);
        batch := batch + [request];
      }
    }

    method SubscribeOne(spk: Script) returns (request: Request)
      modifies this`index, this`lastId, this`watched, this`shSpk
      ensures Tabs() == WithSubscribe(old(Tabs()), request.id, spk, hash(spk))
      ensures lastId == IdAfter(old(lastId), 1) && request == Request(lastId, Subscribe(hash(spk)))
    {
      var sh := hash(spk);
      request := Register(Subscribe(sh));
      watched := watched[request.id := sh];
      shSpk := shSpk[sh := spk];
    }

    method HistoryBatch(spks: seq<Script>) returns (batch: seq<Request>)
      modifies this`index, this`lastId, this`reqidSpk, this`answered
      ensures Tabs() == Registered(old(Tabs()), old(lastId), HistoryOf(spks), hash, |spks|)
      ensures batch == BatchFor(old(lastId), HistoryOf(spks), hash) && lastId == IdAfter(old(lastId), |spks|)
    {
      batch := [];
      for i := 0 to |spks|
        invariant Tabs() == Registered(old(Tabs()), old(lastId), HistoryOf(spks), hash, i)
        invariant |batch| == i && lastId == IdAfter(old(lastId), i)
        invariant forall j :: 0 <= j < i ==> batch[j] == RequestAt(old(lastId), HistoryOf(spks), hash, j)
      {
        NextId(old(lastId), i);
        var request := HistoryOne(spks[i]);
        batch := batch + [request];
      }
    }

    method HistoryOne(spk: Script) returns (request: Request)
      modifies this`index, this`lastId, this`reqidSpk, this`answered
      ensures Tabs() == WithHistory(old(Tabs()), request.id, spk, hash(spk))
      ensures lastId == IdAfter(old(lastId), 1) && request == Request(lastId, GetHistory(hash(spk)))
    {
      request := Register(GetHistory(hash(spk)));
      reqidSpk := reqidSpk[request.id := spk];
      answered := answered - {request.id};
    }

    method TxBatch(txids: seq<Txid>) returns (batch: seq<Request>)
      modifies this`index, this`lastId
      ensures Tabs() == Registered(old(Tabs()), old(lastId), TxsOf(txids), hash, |txids|)
      ensures batch == BatchFor(old(lastId), TxsOf(txids), hash) && lastId == IdAfter(old(lastId), |txids|)
    {
      batch := [];
      for i := 0 to |txids|
        invariant Tabs() == Registered(old(Tabs()), old(lastId), TxsOf(txids), hash, i)
        invariant |batch| == i && lastId == IdAfter(old(lastId), i)
        invariant forall j :: 0 <= j < i ==> batch[j] == RequestAt(old(lastId), TxsOf(txids), hash, j)
      {
        NextId(old(lastId), i);
        var request := Register(GetTx(txids[i]));
        batch := batch + [request];
      }
    }

    /** Try to send until it succeeds; from the eleventh failure on each one is reported to the
        consumer, and a consumer that is gone ends the attempt. */
    method RetrySend(failures: nat, open: bool) returns (sent: bool)
      modifies this`delivered
      ensures sent <==> failures <= 10 || open
      ensures sent ==> delivered == old(delivered) + Complaints(failures)
    {
      var retry := 0;
      while retry < failures
        invariant retry <= failures && (retry > 10 ==> open)
        invariant delivered == old(delivered) + Complaints(retry)
      {
        retry := retry + 1;
        if retry > 10 {
          if !open {
            return false;
          }
          delivered := delivered + [ErrorMessage];
        }
      }
      return true;
    }

    method SendBatch(batch: seq<Request>, failures: nat, open: bool) returns (sent: bool)
      requires Valid() && lastRequest.None?
      modifies this`lastRequest, this`delivered, this`wire
      ensures sent <==> failures <= 10 || open
      ensures sent ==> Valid() && lastRequest == Some(batch) && wire == old(wire) + [Sent(batch)]
      ensures sent ==> delivered == old(delivered) + Complaints(failures)
      ensures !sent ==> wire == old(wire)
    {
      lastRequest := Some(batch);
      sent := RetrySend(failures, open);
      if sent {
        DisciplinedAppend(wire, Sent(batch));
        wire := wire + [Sent(batch)];
      }
    }

    /** The request is registered, its batch is sent, if there is one, and the failures are reported. */
    twostate predicate TakenUp(request: CoinRequest, failures: nat)
      reads this
    {
      var batch := BatchFor(old(lastId), request, hash);
      && Tabs() == Registered(old(Tabs()), old(lastId), request, hash, Size(request))
      && lastId == IdAfter(old(lastId), Size(request))
      && wire == old(wire) + Sending(batch)
      && lastRequest == (if batch == [] then old(lastRequest) else Some(batch))
      && delivered == old(delivered) + if batch == [] then [] else Complaints(failures)
    }

    method HandleRequest(request: CoinRequest, failures: nat, open: bool) returns (status: Status)
      requires Valid() && lastRequest.None?
      modifies this`index, this`lastId, this`watched, this`shSpk, this`reqidSpk, this`answered, this`lastRequest,
          this`delivered, this`wire
      ensures Disciplined(wire) && old(wire) <= wire && (status.Running? ==> Valid())
      ensures status == RequestStatus(request, failures, open)
      ensures status.Running? ==> TakenUp(request, failures)
      ensures request.Stop? && open ==> delivered == old(delivered) + [StoppedResponse]
    {
      if request.Stop? {
        if open {
          delivered := delivered + [StoppedResponse];
          return Returned;
        }
        return Panicked;
      }
      RegisteredKeepsTables(Tabs(), lastId, request, hash, Size(request));
      var batch := MakeBatch(request);
      if batch == [] {
        return Running;
      }
      var sent := SendBatch(batch, failures, open);
      if !sent {
        return if request.TxsOf? then Returned else Panicked;
      }
      return Running;
    }

    /** Register every part of the request under a fresh id. */
    method MakeBatch(request: CoinRequest) returns (batch: seq<Request>)
      requires !request.Stop?
      modifies this`index, this`lastId, this`watched, this`shSpk, this`reqidSpk, this`answered
      ensures Tabs() == Registered(old(Tabs()), old(lastId), request, hash, Size(request))
      ensures batch == BatchFor(old(lastId), request, hash) && lastId == IdAfter(old(lastId), Size(request))
    {
      match request {
        case SubscribeTo(spks) => batch := SubscribeBatch(spks);
        case HistoryOf(spks) => batch := HistoryBatch(spks);
        case TxsOf(txids) => batch := TxBatch(txids);
      }
    }

    /** One answer. The lookups for a subscribe answer cannot fail. */
    method TakeResponse(
      r: Response, open: bool, statuses: map<Script, Option<string>>, histories: map<Script, seq<Seen>>,
          txs: seq<Transaction>)
      returns (status: Status, statuses': map<Script, Option<string>>, histories': map<Script, seq<Seen>>,
          txs': seq<Transaction>)
      requires TablesOk(Tabs(), hash) && Fits(r, index)
      modifies this`reqidSpk, this`answered, this`delivered
      ensures status == if Fatal(old(Tabs()), decode, r) then Panicked
                        else if r.ErrorResponse? && !open then Returned
                        else Running
      ensures status.Running? ==> delivered == old(delivered) + if r.ErrorResponse? then [ErrorMessage] else []
      ensures status.Running? ==>
                Taken(decode, r, old(Tabs()), statuses, histories, txs, Tabs(), statuses', histories', txs')
    {
      status, statuses', histories', txs' := Running, statuses, histories, txs;
      match r {
        case SHSubscribe(id, result) =>
          statuses' := statuses[shSpk[watched[id]] := result];
        case SHNotification(sh, result) =>
          if sh !in shSpk {
            status := Panicked;
            return;
          }
          statuses' := statuses[shSpk[sh] := result];
        case SHGetHistory(id, history) =>
          if id !in reqidSpk {
            status := Panicked;
            return;
          }
          histories' := histories[reqidSpk[id] := Heights(history)];
          reqidSpk := reqidSpk - {id};
          answered := answered + {id};
        case TxGet(_, RawTx(hex)) =>
          if decode(hex).None? {
            status := Panicked;
            return;
          }
          txs' := txs + [decode(hex).value];
        case ErrorResponse(_) =>
          if !open {
            status := Returned;
            return;
          }
          delivered := delivered + [ErrorMessage];
        case _ =>
      }
    }

    /** Work through the answers in order. The lookups for subscribe answers cannot fail; the loop
        panics exactly at the first fatal answer. */
    method TakeResponses(rs: seq<Response>, open: bool)
      returns (status: Status, statuses: map<Script, Option<string>>, histories: map<Script, seq<Seen>>,
          txs: seq<Transaction>)
      requires TablesOk(Tabs(), hash) && forall i :: 0 <= i < |rs| ==> Fits(rs[i], index)
      modifies this`reqidSpk, this`answered, this`delivered
      ensures status == TakeStatus(old(Tabs()), decode, rs, |rs|, open)
      ensures status.Running? ==>
                && TablesOk(Tabs(), hash) && Tabs() == TablesAfter(old(Tabs()), rs, |rs|)
                && statuses == StatusesAfter(old(Tabs()), rs, |rs|)
                && histories == HistoriesAfter(old(Tabs()), rs, |rs|)
                && txs == TxsAfter(decode, rs, |rs|)
                && delivered == old(delivered) + ErrorsAfter(rs, |rs|)
    {
      ghost var t := Tabs();
      statuses, histories, txs := map[], map[], [];
      for n := 0 to |rs|
        invariant Gathered(decode, t, rs, n, Tabs(), statuses, histories, txs) && index == t.index
        invariant TakeStatus(t, decode, rs, n, open).Running?
        invariant delivered == old(delivered) + ErrorsAfter(rs, n)
      {
        assert Fits(rs[n], index);
        TablesAfterFacts(t, rs, n, hash);
        ghost var before, statuses0, histories0, txs0 := Tabs(), statuses, histories, txs;
        status, statuses, histories, txs := TakeResponse(rs[n], open, statuses, histories, txs);
        if !status.Running? {
          EndsForGood(t, decode, rs, n + 1, |rs|, open);
          return;
        }
        GatheredStep(decode, t, rs, n, before, statuses0, histories0, txs0, Tabs(), statuses, histories, txs);
      }
      TablesAfterFacts(t, rs, |rs|, hash);
      status := Running;
    }

    /** Report what was gathered; empty tables are not reported. */
    method Deliver(histories: map<Script, seq<Seen>>, statuses: map<Script, Option<string>>, txs: seq<Transaction>,
        open: bool)
      returns (status: Status)
      modifies this`delivered
      ensures status == DeliverStatus(Reports(histories, statuses, txs), open)
      ensures status.Running? ==> delivered == old(delivered) + Reports(histories, statuses, txs)
    {
      var reports := Reports(histories, statuses, txs);
      if reports != [] {
        if !open {
          return Panicked;
        }
        delivered := delivered + reports;
      }
      return Running;
    }

    /** A readable message from the server: it ends the batch in flight if it answers all of it;
        otherwise the whole batch is sent again. */
    method HandleResponses(rs: seq<Response>, resendOk: bool, open: bool) returns (status: Status)
      requires Valid() && forall i :: 0 <= i < |rs| ==> Fits(rs[i], index)
      modifies this`lastRequest, this`reqidSpk, this`answered, this`delivered, this`wire
      ensures Disciplined(wire) && (status.Running? ==> Valid())
      ensures old(wire) + [Answered(rs)] <= wire
      ensures var settled := SettleStatus(old(lastRequest), rs, resendOk);
              status == if settled.Running? then AnswersStatus(old(Tabs()), decode, rs, open) else settled
      ensures status.Running? ==>
                && wire == old(wire) + [Answered(rs)] + Resending(old(lastRequest), rs)
                && lastRequest == Settled(old(lastRequest), rs)
                && Tabs() == TablesAfter(old(Tabs()), rs, |rs|)
                && delivered == old(delivered) + Told(decode, old(Tabs()), rs)
    {
      status := Settle(rs, resendOk);
      if status.Running? {
        status := TakeAndTell(rs, open);
      }
    }

    /** Work through the answers, then report what they came to. */
    method TakeAndTell(rs: seq<Response>, open: bool) returns (status: Status)
      requires TablesOk(Tabs(), hash) && forall i :: 0 <= i < |rs| ==> Fits(rs[i], index)
      modifies this`reqidSpk, this`answered, this`delivered
      ensures status == AnswersStatus(old(Tabs()), decode, rs, open)
      ensures status.Running? ==>
                && TablesOk(Tabs(), hash) && Tabs() == TablesAfter(old(Tabs()), rs, |rs|)
                && delivered == old(delivered) + Told(decode, old(Tabs()), rs)
    {
      var statuses, histories, txs;
      status, statuses, histories, txs := TakeResponses(rs, open);
      if status.Running? {
        status := Deliver(histories, statuses, txs, open);
      }
    }

    method Settle(rs: seq<Response>, resendOk: bool) returns (status: Status)
      requires Valid()
      modifies this`lastRequest, this`wire
      ensures Disciplined(wire) && (status.Running? ==> Valid())
      ensures old(wire) + [Answered(rs)] <= wire
      ensures status == SettleStatus(old(lastRequest), rs, resendOk)
      ensures status.Running? ==>
                && wire == old(wire) + [Answered(rs)] + Resending(old(lastRequest), rs)
                && lastRequest == Settled(old(lastRequest), rs)
    {
      DisciplinedAppend(wire, Answered(rs));
      wire := wire + [Answered(rs)];
      if lastRequest.Some? {
        if Matches(lastRequest.value, rs) {
          lastRequest := None;
        } else {
          if !resendOk {
            return Panicked;
          }
          DisciplinedAppend(wire, Sent(lastRequest.value));
          wire := wire + [Sent(lastRequest.value)];
        }
      }
      return Running;
    }

    /** A request is taken up only when no batch is in flight. */
    method PollRequest(turn: Turn) returns (status: Status)
      requires Valid()
      modifies this`index, this`lastId, this`watched, this`shSpk, this`reqidSpk, this`answered, this`lastRequest,
          this`delivered, this`wire
      ensures Disciplined(wire) && old(wire) <= wire && (status.Running? ==> Valid())
      ensures status == ConsumerStatus(turn, old(lastRequest))
      ensures status.Running? ==> Polled(UptakeOf(turn, old(Tabs()), old(lastId), old(lastRequest), hash))
      ensures status.Running? ==> State() == Midway(turn, old(State()), hash)
      ensures Stops(turn, old(lastRequest)) ==> delivered == old(delivered) + [StoppedResponse]
    {
      if lastRequest.Some? {
        return Running;
      }
      match turn.polled {
        case Asked(request) => status := HandleRequest(request, turn.failures, turn.open);
        case Nothing => status := Running;
        case Disconnected => status := Returned;
      }
    }

    /** What the server says is read against the index; what cannot be read is reported as an error. */
    method PollServer(turn: Turn) returns (status: Status)
      requires Valid()
      modifies this`lastRequest, this`reqidSpk, this`answered, this`delivered, this`wire
      ensures Disciplined(wire) && old(wire) <= wire && (status.Running? ==> Valid())
      ensures status == ServerStatus(turn, old(State()), decode)
      ensures status.Running? ==>
                && State() == AfterServer(turn, old(State()))
                && wire == old(wire) + ServerWire(turn, old(State()))
                && delivered == old(delivered) + ServerTold(turn, old(State()), decode)
    {
      var parsed := None;
      match turn.reply {
        case Silence =>
          return Running;
        case ReadError =>
        case Lines(raws) =>
          parsed := ParseBatch(raws, index);
      }
      if parsed.Some? {
        status := HandleResponses(parsed.value, turn.resendOk, turn.open);
      } else if turn.open {
        delivered := delivered + [ErrorMessage];
        status := Running;
      } else {
        status := Returned;
      }
    }

    /** One pass through the loop: a request of the consumer, then a message from the server. */
    method Pass(turn: Turn) returns (status: Status)
      requires Valid()
      modifies this
      ensures Disciplined(wire) && old(wire) <= wire && (status.Running? ==> Valid())
      ensures status == PassStatus(turn, old(State()), hash, decode)
      ensures status.Running? ==> State() == NextLoop(turn, old(State()), hash) && Passed(turn)
      ensures Stops(turn, old(lastRequest)) ==> status.Returned? && delivered == old(delivered) + [StoppedResponse]
    {
      status := PollRequest(turn);
      if status.Running? {
        status := PollServer(turn);
      }
    }

    twostate predicate Polled(u: Uptake)
      reads this
    {
      wire == old(wire) + Sending(u.batch) && delivered == old(delivered) + u.complaints
    }

    /** What a completed pass sent, heard and told, from the state before it alone. */
    twostate predicate Passed(turn: Turn)
      reads this
    {
      && wire == old(wire) + PassSends(turn, old(State()), hash) + PassHears(turn, old(State()), hash)
      && delivered == old(delivered) + PassComplaints(turn, old(State()), hash)
          + PassTold(turn, old(State()), hash, decode)
    }

    /** Any number of passes, whatever the consumer asks and the server answers: the sends stay
        disciplined throughout, and the tables stay consistent while the loop runs. */
    method Listen(turns: nat -> Turn, passes: nat) returns (status: Status)
      requires Valid()
      modifies this
      ensures Disciplined(wire) && old(wire) <= wire && (status.Running? ==> Valid())
      ensures status == StatusAfter(turns, old(State()), hash, decode, passes)
      ensures status.Running? ==>
                && State() == LoopAfter(turns, old(State()), hash, passes)
                && delivered == old(delivered) + DeliveredBy(turns, old(State()), hash, decode, passes)
                && wire == old(wire) + WiredBy(turns, old(State()), hash, passes)
    {
      status := Running;
      var k := 0;
      ghost var told, wired := [], [];
      while k < passes && status.Running?
        invariant k <= passes && Disciplined(wire) && old(wire) <= wire
        invariant status == StatusAfter(turns, old(State()), hash, decode, k)
        invariant status.Running? ==> Valid() && State() == LoopAfter(turns, old(State()), hash, k)
        invariant status.Running? ==> told == DeliveredBy(turns, old(State()), hash, decode, k)
        invariant status.Running? ==> wired == WiredBy(turns, old(State()), hash, k)
        invariant status.Running? ==> delivered == old(delivered) + told && wire == old(wire) + wired
      {
        Regroup(old(delivered), told, PassComplaints(turns(k), State(), hash),
            PassTold(turns(k), State(), hash, decode));
        Regroup(old(wire), wired, PassSends(turns(k), State(), hash), PassHears(turns(k), State(), hash));
        told := told + PassComplaints(turns(k), State(), hash) + PassTold(turns(k), State(), hash, decode);
        wired := wired + PassSends(turns(k), State(), hash) + PassHears(turns(k), State(), hash);
        status := Pass(turns(k));
        k := k + 1;
      }
      StoppedForGood(turns, old(State()), hash, decode, k, passes);
    }
  }
}
