/** Pools and pool messages, with the JSON form in which messages travel. */
module Nostr {
  import opened Bitcoin

  type Npub = nat
  type SecretKey = nat

  datatype Credentials = Credentials(id: string, key: SecretKey)

  datatype PoolMessage =
    | Input(input: InputDataSigned)
    | Output(address: Address)
    | PsbtMessage(psbt: Psbt)
    | TransactionMessage(tx: Transaction)
    | Join(npub: Option<Npub>)
    | CredentialsMessage(credentials: Credentials)

  datatype Timeline =
    | Simple(timestamp: u64)
    | Fixed(start: u64, maxDuration: u64)
    | Timeout(timeout: u64, maxDuration: u64)

  datatype Fee = FixedFee(rate: u32) | Provider

  datatype PoolPayload = PoolPayload(denomination: Amount, peers: nat, timeout: Timeline, fee: Fee)

  datatype Pool = Pool(id: string, publicKey: Npub, network: Network, payload: Option<PoolPayload>)

  // ---------------------------------------------------------------- PSBT to input

  datatype PsbtError = NoInput | TooMuchInputs | WitnessMissing
  datatype PsbtResult = PsbtOk(input: InputDataSigned) | PsbtErr(error: PsbtError)

  function FromPsbt(p: Psbt): PsbtResult {
    if |p.inputs| == 0 then PsbtErr(NoInput)
    else if |p.inputs| > 1 then PsbtErr(TooMuchInputs)
    else if |p.unsignedTx.input| == 0 then PsbtErr(NoInput)
    else if |p.unsignedTx.input| > 1 then PsbtErr(TooMuchInputs)
    else
      var txin := p.unsignedTx.input[0];
      if txin.witnessStack != [] then PsbtOk(InputDataSigned(txin, None))
      else match p.inputs[0].finalScriptWitness
        case Some(stack) => PsbtOk(InputDataSigned(txin.(witnessStack := stack), None))
        case None => PsbtErr(WitnessMissing)
  }

  /** Exactly which PSBTs offer an input: one input on both sides, with a witness on the transaction or a
      final one beside it. The offer is that input with that witness, and claims no amount. */
  lemma FromPsbtIff(p: Psbt)
    ensures FromPsbt(p).PsbtOk? <==>
              && |p.inputs| == 1 && |p.unsignedTx.input| == 1
              && (p.unsignedTx.input[0].witnessStack != [] || p.inputs[0].finalScriptWitness.Some?)
    ensures FromPsbt(p).PsbtOk? ==>
              var offered, txin := FromPsbt(p).input, p.unsignedTx.input[0];
              && offered.amount == None && offered.txin.previousOutput == txin.previousOutput
              && offered.txin.scriptSig == txin.scriptSig && offered.txin.sequence == txin.sequence
              && Some(offered.txin.witnessStack)
                 == if txin.witnessStack != [] then Some(txin.witnessStack) else p.inputs[0].finalScriptWitness
    ensures FromPsbt(p) == PsbtErr(NoInput) <==> |p.inputs| == 0 || (|p.inputs| == 1 && |p.unsignedTx.input| == 0)
    ensures FromPsbt(p) == PsbtErr(TooMuchInputs) <==>
              |p.inputs| > 1 || (|p.inputs| == 1 && |p.unsignedTx.input| > 1)
  {}

  // ---------------------------------------------------------------- JSON

  datatype Json =
    | JNull
    | JBool(b: bool)
    | JNum(n: int)
    | JStr(s: string)
    | JArr(items: seq<Json>)
    | JObj(fields: map<string, Json>)

  /** The library's leaf encodings: consensus hex, address and key text, and the serialized form
      of a PSBT. */
  datatype Codecs = Codecs(
    txinHex: TxIn -> string, txinParse: string -> Option<TxIn>,
    stackHex: seq<Bytes> -> string, stackParse: string -> Option<seq<Bytes>>,
    txHex: Transaction -> string, txParse: string -> Option<Transaction>,
    addressText: Address -> string, addressParse: string -> Option<Address>,
    npubText: Npub -> string, npubParse: string -> Option<Npub>,
    keyHex: SecretKey -> string, keyParse: string -> Option<SecretKey>,
    psbtJson: Psbt -> Json, psbtParse: string -> Option<Psbt>)

  /** What is assumed of them: each decoder undoes its encoder, except that an encoded transaction
      input has lost its witness, and a PSBT is serialized as an object. */
  ghost predicate Faithful(c: Codecs) {
    && (forall t: TxIn :: c.txinParse(c.txinHex(t)) == Some(t.(witnessStack := [])))
    && (forall w: seq<Bytes> :: c.stackParse(c.stackHex(w)) == Some(w))
    && (forall t: Transaction :: c.txParse(c.txHex(t)) == Some(t))
    && (forall a: Address :: c.addressParse(c.addressText(a)) == Some(a))
    && (forall n: Npub :: c.npubParse(c.npubText(n)) == Some(n))
    && (forall k: SecretKey :: c.keyParse(c.keyHex(k)) == Some(k))
    && (forall p: Psbt :: c.psbtJson(p).JObj?)
  }

  datatype ParsingError =
    | SerdeJson | Unknown | UnknownType(t: string) | InputError | OutputError | PsbtError
    | TransactionError | NotAnObject | MissingKey(k: string) | WrongValue(k: string)
    | Consensus | Credential | VersionNotSupported(v: string) | VersionMissing

  datatype Parsed<+T> = Good(value: T) | Bad(error: ParsingError)

  function InputToJson(c: Codecs, i: InputDataSigned): Json {
    var m := map["txin" := JStr(c.txinHex(i.txin)), "witness" := JStr(c.stackHex(i.txin.witnessStack))];
    JObj(if i.amount.Some? then m["amount" := JNum(i.amount.value)] else m)
  }

  function InputFromJson(c: Codecs, j: Json): Parsed<InputDataSigned> {
    if !j.JObj? then Bad(NotAnObject)
    else if "txin" !in j.fields then Bad(MissingKey("txin"))
    else if !j.fields["txin"].JStr? then Bad(WrongValue("txin"))
    else match c.txinParse(j.fields["txin"].s)
      case None => Bad(Consensus)
      case Some(txin) =>
        if "witness" !in j.fields then Bad(MissingKey("witness"))
        else if !j.fields["witness"].JStr? then Bad(WrongValue("witness"))
        else match c.stackParse(j.fields["witness"].s)
          case None => Bad(Consensus)
          case Some(stack) =>
            if "amount" !in j.fields then Bad(MissingKey("amount"))
            else match j.fields["amount"]
              case JNum(n) =>
                if 0 <= n < U64_LIMIT then Good(InputDataSigned(txin.(witnessStack := stack), Some(n)))
                else Bad(SerdeJson)
              case _ => Bad(SerdeJson)
  }

  function TypeName(m: PoolMessage): string {
    match m
    case Input(_) => "input"
    case Output(_) => "output"
    case PsbtMessage(_) => "psbt"
    case TransactionMessage(_) => "transaction"
    case Join(_) => "join_pool"
    case CredentialsMessage(_) => "credentials"
  }

  function ToJson(c: Codecs, m: PoolMessage): Json {
    var head := map["version" := JStr("1"), "type" := JStr(TypeName(m))];
    JObj(
      match m
      case PsbtMessage(p) => head["psbt" := c.psbtJson(p)]
      case TransactionMessage(tx) => head["transaction" := JStr(c.txHex(tx))]
      case Join(npub) => if npub.Some? then head["npub" := JStr(c.npubText(npub.value))] else head
      case Input(i) => head["input" := InputToJson(c, i)]
      case Output(a) => head["address" := JStr(c.addressText(a))]
      case CredentialsMessage(cred) =>
        head["credentials" := JObj(map["id" := JStr(cred.id), "key" := JStr(c.keyHex(cred.key))])])
  }

  function CredentialsFromJson(c: Codecs, j: Json): Parsed<Credentials> {
    if !j.JObj? || "id" !in j.fields || "key" !in j.fields then Bad(SerdeJson)
    else match (j.fields["id"], j.fields["key"])
      case (JStr(id), JStr(key)) =>
        (match c.keyParse(key)
         case Some(k) => Good(Credentials(id, k))
         case None => Bad(SerdeJson))
      case _ => Bad(SerdeJson)
  }

  function BodyFromJson(c: Codecs, t: string, f: map<string, Json>): Parsed<PoolMessage> {
    if t == "psbt" then
      if "psbt" in f && f["psbt"].JStr? then
        match c.psbtParse(f["psbt"].s)
        case Some(p) => Good(PsbtMessage(p))
        case None => Bad(SerdeJson)
      else Bad(PsbtError)
    else if t == "input" then
      if "input" in f then
        match InputFromJson(c, f["input"])
        case Good(i) => Good(Input(i))
        case Bad(e) => Bad(e)
      else Bad(InputError)
    else if t == "output" then
      if "address" in f && f["address"].JStr? then
        match c.addressParse(f["address"].s)
        case Some(a) => Good(Output(a))
        case None => Bad(OutputError)
      else Bad(OutputError)
    else if t == "transaction" then
      if "transaction" in f && f["transaction"].JStr? then
        match c.txParse(f["transaction"].s)
        case Some(tx) => Good(TransactionMessage(tx))
        case None => Bad(TransactionError)
      else Bad(TransactionError)
    else if t == "join_pool" then
      if "npub" in f then
        match f["npub"]
        case JStr(s) => (match c.npubParse(s) case Some(n) => Good(Join(Some(n))) case None => Bad(SerdeJson))
        case _ => Bad(SerdeJson)
      else Good(Join(None))
    else if t == "credentials" then
      if "credentials" in f then
        match CredentialsFromJson(c, f["credentials"])
        case Good(cred) => Good(CredentialsMessage(cred))
        case Bad(e) => Bad(e)
      else Bad(Credential)
    else Bad(UnknownType(t))
  }

  function FromJson(c: Codecs, j: Json): Parsed<PoolMessage> {
    if !j.JObj? then Bad(Unknown)
    else if "version" !in j.fields || !j.fields["version"].JStr? then Bad(VersionMissing)
    else if j.fields["version"].s != "1" then Bad(VersionNotSupported(j.fields["version"].s))
    else if "type" !in j.fields || !j.fields["type"].JStr? then Bad(Unknown)
    else BodyFromJson(c, j.fields["type"].s, j.fields)
  }

  /** The witness, which the input encoding drops, comes back from its own field; an input whose
      amount is unknown cannot be read back at all. */
  lemma InputRoundTripIff(c: Codecs, i: InputDataSigned)
    requires Faithful(c)
    ensures InputFromJson(c, InputToJson(c, i)) == Good(i) <==> i.amount.Some?
    ensures i.amount.None? ==> InputFromJson(c, InputToJson(c, i)) == Bad(MissingKey("amount"))
  {
    var t := i.txin.(witnessStack := []);
    assert t.(witnessStack := i.txin.witnessStack) == i.txin;
    assert "txin" != "witness" && "txin" != "amount" && "witness" != "amount";
  }

  /** The fields of a printed input. */
  lemma PrintedInput(c: Codecs, i: InputDataSigned)
    ensures var j := InputToJson(c, i);
            && j.JObj? && j.fields.Keys == {"txin", "witness"} + (if i.amount.Some? then {"amount"} else {})
            && j.fields["txin"] == JStr(c.txinHex(i.txin))
            && j.fields["witness"] == JStr(c.stackHex(i.txin.witnessStack))
            && (i.amount.Some? ==> j.fields["amount"] == JNum(i.amount.value))
  {
    assert "txin" != "witness" && "txin" != "amount" && "witness" != "amount";
  }

  /** Each kind of message has its type name and, beside version 1, its one field. */
  lemma PrintedMessage(c: Codecs, m: PoolMessage)
    ensures var j := ToJson(c, m);
            && j.JObj? && {"version", "type"} <= j.fields.Keys && j.fields["version"] == JStr("1")
            && match m
               case Input(i) => j.fields["type"] == JStr("input") && "input" in j.fields
                   && j.fields["input"] == InputToJson(c, i)
               case Output(a) =>
                 j.fields["type"] == JStr("output") && "address" in j.fields
                     && j.fields["address"] == JStr(c.addressText(a))
               case PsbtMessage(p) =>
                 j.fields["type"] == JStr("psbt") && "psbt" in j.fields && j.fields["psbt"] == c.psbtJson(p)
               case TransactionMessage(tx) =>
                 && j.fields["type"] == JStr("transaction") && "transaction" in j.fields
                 && j.fields["transaction"] == JStr(c.txHex(tx))
               case Join(npub) =>
                 && j.fields["type"] == JStr("join_pool") && ("npub" in j.fields <==> npub.Some?)
                 && (npub.Some? ==> j.fields["npub"] == JStr(c.npubText(npub.value)))
               case CredentialsMessage(cred) =>
                 && j.fields["type"] == JStr("credentials") && "credentials" in j.fields
                 && j.fields["credentials"] == JObj(map["id" := JStr(cred.id), "key" := JStr(c.keyHex(cred.key))])
  {}

  /** Whatever is read had version 1 and the type name of the message read. */
  lemma ReadHead(c: Codecs, j: Json)
    ensures FromJson(c, j).Good? ==>
              && j.JObj? && "version" in j.fields && j.fields["version"] == JStr("1")
              && "type" in j.fields && j.fields["type"] == JStr(TypeName(FromJson(c, j).value))
    ensures j.JObj? && "version" in j.fields && j.fields["version"].JStr? && j.fields["version"].s != "1" ==>
              FromJson(c, j) == Bad(VersionNotSupported(j.fields["version"].s))
    ensures j.JObj? && ("version" in j.fields ==> !j.fields["version"].JStr?) ==> FromJson(c, j) == Bad(VersionMissing)
  {}

  /** The error for each way in which an input cannot be read, the first one in this order. */
  lemma InputErrors(c: Codecs, j: Json)
    ensures !j.JObj? <==> InputFromJson(c, j) == Bad(NotAnObject)
    ensures j.JObj? ==>
              var f, r := j.fields, InputFromJson(c, j);
              if "txin" !in f then r == Bad(MissingKey("txin"))
              else if !f["txin"].JStr? then r == Bad(WrongValue("txin"))
              else if c.txinParse(f["txin"].s).None? then r == Bad(Consensus)
              else if "witness" !in f then r == Bad(MissingKey("witness"))
              else if !f["witness"].JStr? then r == Bad(WrongValue("witness"))
              else if c.stackParse(f["witness"].s).None? then r == Bad(Consensus)
              else if "amount" !in f then r == Bad(MissingKey("amount"))
              else r.Good? <==> f["amount"].JNum? && 0 <= f["amount"].n < 0x1_0000_0000_0000_0000
  {}

  /** The error for a message whose field is missing or does not decode. */
  lemma MessageErrors(c: Codecs, f: map<string, Json>)
    requires "version" in f && f["version"] == JStr("1") && "type" in f && f["type"].JStr?
    ensures var t, r := f["type"].s, FromJson(c, JObj(f));
            && (t == "psbt" && ("psbt" in f ==> !f["psbt"].JStr?) ==> r == Bad(PsbtError))
            && (t == "input" && "input" !in f ==> r == Bad(InputError))
            && (t == "output" && ("address" in f && f["address"].JStr? ==> c.addressParse(f["address"].s).None?) ==>
                  r == Bad(OutputError))
            && (t == "transaction"
                && ("transaction" in f && f["transaction"].JStr? ==> c.txParse(f["transaction"].s).None?) ==>
                  r == Bad(TransactionError))
            && (t == "credentials" && "credentials" !in f ==> r == Bad(Credential))
            && (t == "join_pool" && "npub" !in f ==> r == Good(Join(None)))
            && (t !in {"psbt", "input", "output", "transaction", "credentials", "join_pool"} ==>
                r == Bad(UnknownType(t)))
  {}

  lemma PrintedHead(c: Codecs, m: PoolMessage)
    ensures FromJson(c, ToJson(c, m)) == BodyFromJson(c, TypeName(m), ToJson(c, m).fields)
  {
    var f := ToJson(c, m).fields;
    assert f["version"] == JStr("1") && f["type"] == JStr(TypeName(m));
  }

  lemma InputMessageRoundTrips(c: Codecs, m: PoolMessage)
    requires Faithful(c) && m.Input?
    ensures BodyFromJson(c, "input", ToJson(c, m).fields) == Good(m) <==> m.input.amount.Some?
  {
    InputRoundTripIff(c, m.input);
  }

  lemma PsbtMessageIsLost(c: Codecs, m: PoolMessage)
    requires Faithful(c) && m.PsbtMessage?
    ensures BodyFromJson(c, "psbt", ToJson(c, m).fields) == Bad(PsbtError)
  {}

  lemma JoinMessageRoundTrips(c: Codecs, m: PoolMessage)
    requires Faithful(c) && m.Join?
    ensures BodyFromJson(c, "join_pool", ToJson(c, m).fields) == Good(m)
  {
    assert "npub" != "version" && "npub" != "type";
  }

  lemma OtherMessagesRoundTrip(c: Codecs, m: PoolMessage)
    requires Faithful(c) && (m.Output? || m.TransactionMessage? || m.CredentialsMessage?)
    ensures BodyFromJson(c, TypeName(m), ToJson(c, m).fields) == Good(m)
  {}

  /** The messages that survive printing and parsing. */
  predicate Survives(m: PoolMessage) {
    !m.PsbtMessage? && (m.Input? ==> m.input.amount.Some?)
  }

  /** Exactly which messages survive printing and parsing. */
  lemma MessageRoundTripIff(c: Codecs, m: PoolMessage)
    requires Faithful(c)
    ensures FromJson(c, ToJson(c, m)) == Good(m) <==> Survives(m)
  {
    PrintedHead(c, m);
    match m
    case Input(_) => InputMessageRoundTrips(c, m);
    case PsbtMessage(_) => PsbtMessageIsLost(c, m);
    case Join(_) => JoinMessageRoundTrips(c, m);
    case _ => OtherMessagesRoundTrip(c, m);
  }

  /** Whatever JSON a message other than a PSBT was read from, printing it and reading it again
      gives the same message. */
  lemma ReprintStable(c: Codecs, j: Json)
    requires Faithful(c) && FromJson(c, j).Good? && !FromJson(c, j).value.PsbtMessage?
    ensures FromJson(c, ToJson(c, FromJson(c, j).value)) == FromJson(c, j)
  {
    MessageRoundTripIff(c, FromJson(c, j).value);
  }

  /** The fields are inserted one by one; the amount only if it is known. */
  method PrintInput(c: Codecs, i: InputDataSigned) returns (j: Json)
    ensures j == InputToJson(c, i)
    ensures Faithful(c) ==> (InputFromJson(c, j) == Good(i) <==> i.amount.Some?)
  {
    assert Faithful(c) ==> (InputFromJson(c, InputToJson(c, i)) == Good(i) <==> i.amount.Some?) by {
      if Faithful(c) {
        InputRoundTripIff(c, i);
      }
    }
    var m: map<string, Json> := map[];
    m := m["txin" := JStr(c.txinHex(i.txin))];
    m := m["witness" := JStr(c.stackHex(i.txin.witnessStack))];
    if i.amount.Some? {
      m := m["amount" := JNum(i.amount.value)];
    }
    j := JObj(m);
  }

  /** The witness of the decoded input is overwritten with the separately encoded one. */
  method ReadInput(c: Codecs, j: Json) returns (r: Parsed<InputDataSigned>)
    ensures r == InputFromJson(c, j)
    ensures forall i :: Faithful(c) && j == InputToJson(c, i) ==>
              r == if i.amount.Some? then Good(i) else Bad(MissingKey("amount"))
  {
    forall i | Faithful(c) && j == InputToJson(c, i)
      ensures InputFromJson(c, j) == if i.amount.Some? then Good(i) else Bad(MissingKey("amount"))
    {
      InputRoundTripIff(c, i);
    }
    if !j.JObj? {
      return Bad(NotAnObject);
    }
    if "txin" !in j.fields {
      return Bad(MissingKey("txin"));
    }
    if !j.fields["txin"].JStr? {
      return Bad(WrongValue("txin"));
    }
    var decoded := c.txinParse(j.fields["txin"].s);
    if decoded.None? {
      return Bad(Consensus);
    }
    var txin := decoded.value;
    if "witness" !in j.fields {
      return Bad(MissingKey("witness"));
    }
    if !j.fields["witness"].JStr? {
      return Bad(WrongValue("witness"));
    }
    var stack := c.stackParse(j.fields["witness"].s);
    if stack.None? {
      return Bad(Consensus);
    }
    txin := txin.(witnessStack := stack.value);
    if "amount" !in j.fields {
      return Bad(MissingKey("amount"));
    }
    var amount := j.fields["amount"];
    if !amount.JNum? || !(0 <= amount.n < U64_LIMIT) {
      return Bad(SerdeJson);
    }
    r := Good(InputDataSigned(txin, Some(amount.n)));
  }

  method PrintMessage(c: Codecs, m: PoolMessage) returns (j: Json)
    ensures j == ToJson(c, m)
    ensures Faithful(c) ==> (FromJson(c, j) == Good(m) <==> Survives(m))
  {
    assert Faithful(c) ==> (FromJson(c, ToJson(c, m)) == Good(m) <==> Survives(m)) by {
      if Faithful(c) {
        MessageRoundTripIff(c, m);
      }
    }
    var fields := map["version" := JStr("1")];
    fields := fields["type" := JStr(TypeName(m))];
    match m {
      case PsbtMessage(p) => fields := fields["psbt" := c.psbtJson(p)];
      case TransactionMessage(tx) => fields := fields["transaction" := JStr(c.txHex(tx))];
      case Join(npub) =>
        if npub.Some? {
          fields := fields["npub" := JStr(c.npubText(npub.value))];
        }
      case Input(i) =>
        var input := PrintInput(c, i);
        fields := fields["input" := input];
      case Output(a) => fields := fields["address" := JStr(c.addressText(a))];
      case CredentialsMessage(cred) =>
        fields := fields["credentials" := JObj(map["id" := JStr(cred.id), "key" := JStr(c.keyHex(cred.key))])];
    }
    j := JObj(fields);
  }

  /** A message read from JSON, other than a PSBT, is printed so that it is read back. */
  method ReadMessage(c: Codecs, j: Json) returns (r: Parsed<PoolMessage>)
    ensures r == FromJson(c, j)
    ensures Faithful(c) && r.Good? && !r.value.PsbtMessage? ==> FromJson(c, ToJson(c, r.value)) == r
  {
    assert Faithful(c) && FromJson(c, j).Good? && !FromJson(c, j).value.PsbtMessage? ==>
             FromJson(c, ToJson(c, FromJson(c, j).value)) == FromJson(c, j) by {
      if Faithful(c) && FromJson(c, j).Good? && !FromJson(c, j).value.PsbtMessage? {
        ReprintStable(c, j);
      }
    }
    if !j.JObj? {
      return Bad(Unknown);
    }
    if "version" !in j.fields || !j.fields["version"].JStr? {
      return Bad(VersionMissing);
    }
    if j.fields["version"].s != "1" {
      return Bad(VersionNotSupported(j.fields["version"].s));
    }
    if "type" !in j.fields || !j.fields["type"].JStr? {
      return Bad(Unknown);
    }
    if j.fields["type"].s == "input" {
      if "input" !in j.fields {
        return Bad(InputError);
      }
      var input := ReadInput(c, j.fields["input"]);
      return if input.Good? then Good(Input(input.value)) else Bad(input.error);
    }
    return BodyFromJson(c, j.fields["type"].s, j.fields);
  }
}
