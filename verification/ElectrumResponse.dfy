/** Requests to an electrum server, and its answers as they are read back with the help of the
    index of registered requests. */
module ElectrumResponse {
  import opened Bitcoin

  type ReqId = u64
  type ScriptHash = nat

  datatype Query = Subscribe(sh: ScriptHash) | GetHistory(sh: ScriptHash) | GetTx(txid: Txid)
  datatype Request = Request(id: ReqId, query: Query)

  datatype Entry = Entry(txid: Txid, height: int)

  /** The id handed out `n` requests after `last`. */
  function IdAfter(last: ReqId, n: nat): ReqId {
    (last + n) % U64_LIMIT
  }

  lemma NextId(last: ReqId, n: nat)
    ensures IdAfter(IdAfter(last, n), 1) == IdAfter(last, n + 1)
  {}

  /** The `result` of a raw answer, before it is known what it answers. */
  datatype Body = Text(s: string) | Null | Entries(entries: seq<Entry>) | Structure

  /** One JSON object from the server, told apart by its fields. */
  datatype Raw =
    | RawError(id: ReqId)
    | RawHeaders
    | RawNotification(sh: ScriptHash, status: Option<string>)
    | RawReply(id: ReqId, body: Body)
    | RawGarbage

  datatype TxResult = RawTx(hex: string) | VerboseTx

  datatype Response =
    | ErrorResponse(errorId: ReqId)
    | HeaderNotif
    | SHNotification(sh: ScriptHash, status: Option<string>)
    | SHSubscribe(subscribeId: ReqId, result: Option<string>)
    | SHGetHistory(historyId: ReqId, history: seq<Entry>)
    | TxGet(txId: ReqId, tx: TxResult)

  /** The id of an answer; notifications have none. */
  function IdOf(r: Response): Option<ReqId> {
    match r
    case ErrorResponse(id) => Some(id)
    case HeaderNotif => None
    case SHNotification(_, _) => None
    case SHSubscribe(id, _) => Some(id)
    case SHGetHistory(id, _) => Some(id)
    case TxGet(id, _) => Some(id)
  }

  type Index = map<ReqId, Request>

  /** Errors and notifications stand for themselves; anything else is read as the kind of answer
      the indexed request with its id expects. */
  function TryParse(raw: Raw, index: Index): Option<Response> {
    match raw
    case RawError(id) => Some(ErrorResponse(id))
    case RawHeaders => Some(HeaderNotif)
    case RawNotification(sh, status) => Some(SHNotification(sh, status))
    case RawGarbage => None
    case RawReply(id, body) =>
      if id !in index then None
      else match (index[id].query, body)
        case (Subscribe(_), Text(s)) => Some(SHSubscribe(id, Some(s)))
        case (Subscribe(_), Null) => Some(SHSubscribe(id, None))
        case (GetHistory(_), Entries(entries)) => Some(SHGetHistory(id, entries))
        case (GetTx(_), Text(s)) => Some(TxGet(id, RawTx(s)))
        case (GetTx(_), Structure) => Some(TxGet(id, VerboseTx))
        case _ => None
  }

  /** A response is of the kind its request asked for. */
  ghost predicate Fits(r: Response, index: Index) {
    match r
    case SHSubscribe(id, _) => id in index && index[id].query.Subscribe?
    case SHGetHistory(id, _) => id in index && index[id].query.GetHistory?
    case TxGet(id, _) => id in index && index[id].query.GetTx?
    case _ => true
  }

  lemma ParsedFits(raw: Raw, index: Index)
    requires TryParse(raw, index).Some?
    ensures Fits(TryParse(raw, index).value, index)
    ensures raw.RawReply? ==> IdOf(TryParse(raw, index).value) == Some(raw.id)
  {}

  /** How a reply reads: its content is kept, and any other content for the kind of request is unreadable,
      as is a reply to no indexed request. */
  lemma ReplyReads(id: ReqId, body: Body, index: Index)
    ensures id !in index ==> TryParse(RawReply(id, body), index) == None
    ensures id in index && index[id].query.Subscribe? ==>
              (forall status :: TryParse(RawReply(id, body), index) == Some(SHSubscribe(id, status))
                                <==> body == if status.Some? then Text(status.value) else Null)
    ensures id in index && index[id].query.GetHistory? ==>
              (forall entries :: TryParse(RawReply(id, body), index) == Some(SHGetHistory(id, entries))
                                 <==> body == Entries(entries))
    ensures id in index && index[id].query.GetTx? ==>
              && (forall hex :: TryParse(RawReply(id, body), index) == Some(TxGet(id, RawTx(hex))) <==>
                  body == Text(hex))
              && (TryParse(RawReply(id, body), index) == Some(TxGet(id, VerboseTx)) <==> body == Structure)
  {}

  /** What does not reply to a request reads the same whatever is indexed, and only an error has an id. */
  lemma OthersRead(id: ReqId, sh: ScriptHash, status: Option<string>, index: Index)
    ensures TryParse(RawError(id), index).Some? && IdOf(TryParse(RawError(id), index).value) == Some(id)
    ensures TryParse(RawNotification(sh, status), index) == Some(SHNotification(sh, status))
    ensures TryParse(RawHeaders, index) == Some(HeaderNotif) && TryParse(RawGarbage, index) == None
    ensures IdOf(HeaderNotif) == None && IdOf(SHNotification(sh, status)) == None
  {}

  /** The answers of a batch in order; one unreadable answer spoils them all. */
  function Answers(raws: seq<Raw>, index: Index): Option<seq<Response>> {
    if forall i :: 0 <= i < |raws| ==> TryParse(raws[i], index).Some?
    then Some(seq(|raws|, i requires 0 <= i < |raws| => TryParse(raws[i], index).value))
    else None
  }

  /** `ResponseBatch::from_str`. Every answer is of the kind its request expects, and a reply keeps
      its id. */
  method ParseBatch(raws: seq<Raw>, index: Index) returns (batch: Option<seq<Response>>)
    ensures batch == Answers(raws, index)
    ensures batch.Some? ==> forall i :: 0 <= i < |raws| ==> Fits(batch.value[i], index)
    ensures batch.Some? ==> forall i :: 0 <= i < |raws| && raws[i].RawReply? ==>
              IdOf(batch.value[i]) == Some(raws[i].id)
  {
    var responses := [];
    for i := 0 to |raws|
      invariant |responses| == i
      invariant forall j :: 0 <= j < i ==> TryParse(raws[j], index) == Some(responses[j]) && Fits(responses[j], index)
    {
      var r := TryParse(raws[i], index);
      if r.None? {
        return None;
      }
      ParsedFits(raws[i], index);
      responses := responses + [r.value];
    }
    assert responses == Answers(raws, index).value;
    return Some(responses);
  }
}
