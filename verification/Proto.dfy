/** The envelope codec at the level of JSON trees (src/proto.rs). */
module Proto {
  import opened Common

  datatype Json =
    | Null
    | Bool(flag: bool)
    | Number(whole: int)
    | Fraction(value: real)
    | Str(text: string)
    | Arr(items: seq<Json>)
    | Obj(fields: map<string, Json>)

  type u32 = n: int | 0 <= n < 0x1_0000_0000
  type i64 = n: int | -0x8000_0000_0000_0000 <= n < 0x8000_0000_0000_0000

  const U64_LIMIT := 0x1_0000_0000_0000_0000

  datatype MessageType =
    | Join | JoinOk | Auth | Hello | Ping | Pong | Error | Query | QueryOk | Prompt | Reply
    | Interrupt | Answer | Presence | SessionBlocked | Ack | Unknown

  datatype Role = Client | Server

  datatype HelloSession = HelloSession(name: string, harness: string)

  datatype HelloBody = HelloBody(
    protocol: u32,
    protocolMin: u32,
    protocolMax: u32,
    role: Role,
    hostname: string,
    tokenId: Option<string>,
    clientId: Option<string>,
    harnesses: seq<string>,
    harnessesKnown: seq<string>,
    harnessesConfirmed: seq<string>,
    features: seq<string>,
    sessions: seq<HelloSession>)

  datatype Body =
    | JoinBody(secret: string, machine: string)
    | JoinOkBody(clientId: string, credential: string)
    | AuthBody(credential: string)
    | HelloFrame(hello: HelloBody)
    | PingBody(hostname: Option<string>)
    | PongBody(hostname: Option<string>)
    | ErrorBody(code: string, failed: Option<string>, message: Option<string>)
    | QueryBody(cmd: string, args: seq<string>)
    | QueryOkBody(raw: Json)
    | PromptBody(session: string, text: string, meta: Option<Json>)
    | ReplyBody(session: string, said: Option<string>, chunks: seq<string>, done: bool, exit: Option<i64>)
    | InterruptBody(session: string)
    | AnswerBody(session: string, choice: string)
    | PresenceBody(rows: seq<Json>)
    | SessionBlockedBody(session: string, blocked: bool)
    | AckBody(of: Option<string>)
    | UnknownBody(raw: Json)

  datatype Envelope = Envelope(v: u32, msgType: MessageType, id: string, ts: string, from: string, body: Body)

  datatype DecodeError = UnsupportedVersion(v: u32) | Malformed

  // ---------------------------------------------------------------------
  // Message types
  // ---------------------------------------------------------------------

  function FromWire(s: string): MessageType {
    match s
    case "join" => Join
    case "join_ok" => JoinOk
    case "auth" => Auth
    case "hello" => Hello
    case "ping" => Ping
    case "pong" => Pong
    case "error" => Error
    case "query" => Query
    case "query_ok" => QueryOk
    case "prompt" => Prompt
    case "reply" => Reply
    case "interrupt" => Interrupt
    case "answer" => Answer
    case "presence" => Presence
    case "session_blocked" => SessionBlocked
    case "ack" => Ack
    case _ => Unknown
  }

  function AsWireStr(t: MessageType): string {
    match t
    case Join => "join"
    case JoinOk => "join_ok"
    case Auth => "auth"
    case Hello => "hello"
    case Ping => "ping"
    case Pong => "pong"
    case Error => "error"
    case Query => "query"
    case QueryOk => "query_ok"
    case Prompt => "prompt"
    case Reply => "reply"
    case Interrupt => "interrupt"
    case Answer => "answer"
    case Presence => "presence"
    case SessionBlocked => "session_blocked"
    case Ack => "ack"
    case Unknown => "unknown"
  }

  // ---------------------------------------------------------------------
  // Fields
  // ---------------------------------------------------------------------

  type Fields = map<string, Json>

  /** One field of a body; `None` is a field that serialising skips. */
  datatype Field = Field(key: string, value: Option<Json>)

  /** An object from its fields, leaving out the skipped ones. */
  function Build(fields: seq<Field>): Fields {
    if fields == [] then map[]
    else
      var m := Build(Front(fields));
      var f := Last(fields);
      if f.value.Some? then m[f.key := f.value.value] else m
  }

  ghost predicate DistinctKeys(fields: seq<Field>) {
    forall i, j :: 0 <= i < j < |fields| ==> fields[i].key != fields[j].key
  }

  ghost predicate Holds(m: Fields, f: Field) {
    if f.value.Some? then f.key in m && m[f.key] == f.value.value else f.key !in m
  }

  lemma {:induction false} BuildHolds(fields: seq<Field>)
    requires DistinctKeys(fields)
    ensures forall i :: 0 <= i < |fields| ==> Holds(Build(fields), fields[i])
    ensures forall key :: key in Build(fields) ==> exists i :: 0 <= i < |fields| && fields[i].key == key
  {
    if fields != [] {
      var front := Front(fields);
      BuildHolds(front);
      assert forall i :: 0 <= i < |front| ==> front[i] == fields[i];
      assert fields[|fields| - 1] == Last(fields);
    }
  }

  function StrOption(s: Option<string>): Option<Json> {
    if s.Some? then Some(Str(s.value)) else None
  }

  function Strs(strings: seq<string>): seq<Json> {
    if strings == [] then [] else [Str(strings[0])] + Strs(strings[1..])
  }

  function GetStr(m: Fields, key: string): Option<string> {
    if key in m && m[key].Str? then Some(m[key].text) else None
  }

  function GetBool(m: Fields, key: string): Option<bool> {
    if key in m && m[key].Bool? then Some(m[key].flag) else None
  }

  function GetU32(m: Fields, key: string): Option<u32> {
    if key in m && m[key].Number? && 0 <= m[key].whole < 0x1_0000_0000 then Some(m[key].whole) else None
  }

  /** An optional string: missing and `null` both read as absent. */
  function GetOptStr(m: Fields, key: string): Option<Option<string>> {
    if key !in m || m[key] == Null then Some(None)
    else if m[key].Str? then Some(Some(m[key].text))
    else None
  }

  function GetOptI64(m: Fields, key: string): Option<Option<i64>> {
    if key !in m || m[key] == Null then Some(None)
    else if m[key].Number? && -0x8000_0000_0000_0000 <= m[key].whole < 0x8000_0000_0000_0000
    then Some(Some(m[key].whole))
    else None
  }

  function GetOptJson(m: Fields, key: string): Option<Json> {
    if key !in m || m[key] == Null then None else Some(m[key])
  }

  /** A defaulted flag: missing reads as `false`, `null` does not. */
  function GetBoolOr(m: Fields, key: string): Option<bool> {
    if key !in m then Some(false) else if m[key].Bool? then Some(m[key].flag) else None
  }

  function ReadStrs(items: seq<Json>): Option<seq<string>> {
    if items == [] then Some([])
    else match ReadStrs(items[1..])
      case Some(rest) => if items[0].Str? then Some([items[0].text] + rest) else None
      case None => None
  }

  /** A defaulted list: missing reads as empty, `null` does not. */
  function GetStrs(m: Fields, key: string): Option<seq<string>> {
    if key !in m then Some([]) else if m[key].Arr? then ReadStrs(m[key].items) else None
  }

  /** `skip_serializing_if = "Vec::is_empty"`. */
  function ListOption(items: seq<Json>): Option<Json> {
    if items == [] then None else Some(Arr(items))
  }

  function SessionJson(s: HelloSession): Json {
    Obj(map["name" := Str(s.name), "harness" := Str(s.harness)])
  }

  function SessionJsons(sessions: seq<HelloSession>): seq<Json> {
    if sessions == [] then [] else [SessionJson(sessions[0])] + SessionJsons(sessions[1..])
  }

  /** A struct may also come as an array: its fields in declared order, the last
      ones left out if they have defaults. */
  function Positional(names: seq<string>, items: seq<Json>): Fields
    requires |items| <= |names|
  {
    if items == [] then map[] else Positional(names, Front(items))[names[|items| - 1] := Last(items)]
  }

  /** The fields of a struct, from an object or from an array. */
  function StructFields(j: Json, names: seq<string>): Option<Fields> {
    if j.Obj? then Some(j.fields)
    else if j.Arr? && |j.items| <= |names| then Some(Positional(names, j.items))
    else None
  }

  function ReadSession(j: Json): Option<HelloSession> {
    match StructFields(j, ["name", "harness"])
    case None => None
    case Some(m) =>
      match (GetStr(m, "name"), GetStr(m, "harness"))
      case (Some(name), Some(harness)) => Some(HelloSession(name, harness))
      case _ => None
  }

  function ReadSessions(items: seq<Json>): Option<seq<HelloSession>> {
    if items == [] then Some([])
    else match (ReadSession(items[0]), ReadSessions(items[1..]))
      case (Some(first), Some(rest)) => Some([first] + rest)
      case _ => None
  }

  function GetSessions(m: Fields, key: string): Option<seq<HelloSession>> {
    if key !in m then Some([]) else if m[key].Arr? then ReadSessions(m[key].items) else None
  }

  function RoleJson(role: Role): Json {
    Str(if role == Client then "client" else "server")
  }

  /** A unit variant: its name, or an object mapping just that to `null`. */
  function ReadRole(j: Json): Option<Role> {
    if j == Str("client") || j == Obj(map["client" := Null]) then Some(Client)
    else if j == Str("server") || j == Obj(map["server" := Null]) then Some(Server)
    else None
  }

  function GetRole(m: Fields, key: string): Option<Role> {
    if key in m then ReadRole(m[key]) else None
  }

  // ---------------------------------------------------------------------
  // Bodies
  // ---------------------------------------------------------------------

  function HelloFields(h: HelloBody): seq<Field> {
    [Field("protocol", Some(Number(h.protocol))),
     Field("protocol_min", Some(Number(h.protocolMin))),
     Field("protocol_max", Some(Number(h.protocolMax))),
     Field("role", Some(RoleJson(h.role))),
     Field("hostname", Some(Str(h.hostname))),
     Field("token_id", StrOption(h.tokenId)),
     Field("client_id", StrOption(h.clientId)),
     Field("harnesses", ListOption(Strs(h.harnesses))),
     Field("harnesses_known", ListOption(Strs(h.harnessesKnown))),
     Field("harnesses_confirmed", ListOption(Strs(h.harnessesConfirmed))),
     Field("features", ListOption(Strs(h.features))),
     Field("sessions", ListOption(SessionJsons(h.sessions)))]
  }

  function ReplyFields(session: string, said: Option<string>, chunks: seq<string>, done: bool,
                       exit: Option<i64>): seq<Field>
  {
    [Field("session", Some(Str(session))),
     Field("text", StrOption(said)),
     Field("chunks", ListOption(Strs(chunks))),
     Field("done", Some(Bool(done))),
     Field("exit", if exit.Some? then Some(Number(exit.value)) else None)]
  }

  function ErrorFields(code: string, failed: Option<string>, message: Option<string>): seq<Field> {
    [Field("code", Some(Str(code))), Field("cmd", StrOption(failed)), Field("message", StrOption(message))]
  }

  function PromptFields(session: string, text: string, meta: Option<Json>): seq<Field> {
    [Field("session", Some(Str(session))), Field("text", Some(Str(text))), Field("meta", meta)]
  }

  function ReadHello(m: Fields): Option<HelloBody> {
    match (GetU32(m, "protocol"), GetU32(m, "protocol_min"), GetU32(m, "protocol_max"), GetRole(m, "role"),
           GetStr(m, "hostname"))
    case (Some(protocol), Some(lowest), Some(highest), Some(role), Some(hostname)) =>
      (match (GetOptStr(m, "token_id"), GetOptStr(m, "client_id"))
       case (Some(tokenId), Some(clientId)) =>
         (match (GetStrs(m, "harnesses"), GetStrs(m, "harnesses_known"), GetStrs(m, "harnesses_confirmed"),
                 GetStrs(m, "features"), GetSessions(m, "sessions"))
          case (Some(harnesses), Some(known), Some(confirmed), Some(features), Some(sessions)) =>
            Some(HelloBody(protocol, lowest, highest, role, hostname, tokenId, clientId,
                           harnesses, known, confirmed, features, sessions))
          case _ => None)
       case _ => None)
    case _ => None
  }

  function BodyJson(b: Body): Json {
    match b
    case JoinBody(secret, machine) => Obj(map["secret" := Str(secret), "hostname" := Str(machine)])
    case JoinOkBody(clientId, credential) => Obj(map["client_id" := Str(clientId), "credential" := Str(credential)])
    case AuthBody(credential) => Obj(map["credential" := Str(credential)])
    case HelloFrame(h) => Obj(Build(HelloFields(h)))
    case PingBody(hostname) => Obj(Build([Field("hostname", StrOption(hostname))]))
    case PongBody(hostname) => Obj(Build([Field("hostname", StrOption(hostname))]))
    case ErrorBody(code, failed, message) => Obj(Build(ErrorFields(code, failed, message)))
    case QueryBody(cmd, args) => Obj(map["cmd" := Str(cmd), "args" := Arr(Strs(args))])
    case QueryOkBody(raw) => raw
    case PromptBody(session, text, meta) => Obj(Build(PromptFields(session, text, meta)))
    case ReplyBody(session, said, chunks, done, exit) => Obj(Build(ReplyFields(session, said, chunks, done, exit)))
    case InterruptBody(session) => Obj(map["session" := Str(session)])
    case AnswerBody(session, choice) => Obj(map["session" := Str(session), "choice" := Str(choice)])
    case PresenceBody(rows) => Obj(map["sessions" := Arr(rows)])
    case SessionBlockedBody(session, blocked) => Obj(map["session" := Str(session), "blocked" := Bool(blocked)])
    case AckBody(of) => Obj(Build([Field("of", StrOption(of))]))
    case UnknownBody(raw) => raw
  }

  function ReadReply(m: Fields): Option<Body> {
    match (GetStr(m, "session"), GetOptStr(m, "text"), GetStrs(m, "chunks"), GetBoolOr(m, "done"), GetOptI64(m, "exit"))
    case (Some(session), Some(said), Some(chunks), Some(done), Some(exit)) =>
      Some(ReplyBody(session, said, chunks, done, exit))
    case _ => None
  }

  /** The typed bodies: fields may come in any order and unknown ones are ignored. */
  function ReadFields(t: MessageType, m: Fields): Option<Body> {
    match t
    case Join =>
      (match (GetStr(m, "secret"), GetStr(m, "hostname"))
       case (Some(secret), Some(machine)) => Some(JoinBody(secret, machine))
       case _ => None)
    case JoinOk =>
      (match (GetStr(m, "client_id"), GetStr(m, "credential"))
       case (Some(clientId), Some(credential)) => Some(JoinOkBody(clientId, credential))
       case _ => None)
    case Auth => (match GetStr(m, "credential") case Some(c) => Some(AuthBody(c)) case None => None)
    case Hello => (match ReadHello(m) case Some(h) => Some(HelloFrame(h)) case None => None)
    case Ping => (match GetOptStr(m, "hostname") case Some(h) => Some(PingBody(h)) case None => None)
    case Pong => (match GetOptStr(m, "hostname") case Some(h) => Some(PongBody(h)) case None => None)
    case Error =>
      (match (GetStr(m, "code"), GetOptStr(m, "cmd"), GetOptStr(m, "message"))
       case (Some(code), Some(failed), Some(message)) => Some(ErrorBody(code, failed, message))
       case _ => None)
    case Query =>
      (match (GetStr(m, "cmd"), GetStrs(m, "args"))
       case (Some(cmd), Some(args)) => Some(QueryBody(cmd, args))
       case _ => None)
    case Prompt =>
      (match (GetStr(m, "session"), GetStr(m, "text"))
       case (Some(session), Some(text)) => Some(PromptBody(session, text, GetOptJson(m, "meta")))
       case _ => None)
    case Reply => ReadReply(m)
    case Interrupt => (match GetStr(m, "session") case Some(s) => Some(InterruptBody(s)) case None => None)
    case Answer =>
      (match (GetStr(m, "session"), GetStr(m, "choice"))
       case (Some(session), Some(choice)) => Some(AnswerBody(session, choice))
       case _ => None)
    case Presence =>
      if "sessions" in m && m["sessions"].Arr? then Some(PresenceBody(m["sessions"].items)) else None
    case SessionBlocked =>
      (match (GetStr(m, "session"), GetBool(m, "blocked"))
       case (Some(session), Some(blocked)) => Some(SessionBlockedBody(session, blocked))
       case _ => None)
    case Ack => (match GetOptStr(m, "of") case Some(of) => Some(AckBody(of)) case None => None)
    case QueryOk => Some(QueryOkBody(Obj(m)))
    case Unknown => Some(UnknownBody(Obj(m)))
  }

  /** The fields of each typed body, in declared order. */
  function FieldNames(t: MessageType): seq<string> {
    match t
    case Join => ["secret", "hostname"]
    case JoinOk => ["client_id", "credential"]
    case Auth => ["credential"]
    case Hello => ["protocol", "protocol_min", "protocol_max", "role", "hostname", "token_id", "client_id", "harnesses",
                   "harnesses_known", "harnesses_confirmed", "features", "sessions"]
    case Ping => ["hostname"]
    case Pong => ["hostname"]
    case Error => ["code", "cmd", "message"]
    case Query => ["cmd", "args"]
    case Prompt => ["session", "text", "meta"]
    case Reply => ["session", "text", "chunks", "done", "exit"]
    case Interrupt => ["session"]
    case Answer => ["session", "choice"]
    case Presence => ["sessions"]
    case SessionBlocked => ["session", "blocked"]
    case Ack => ["of"]
    case QueryOk => []
    case Unknown => []
  }

  function ReadBody(t: MessageType, j: Json): Option<Body> {
    if t == QueryOk then Some(QueryOkBody(j))
    else if t == Unknown then Some(UnknownBody(j))
    else match StructFields(j, FieldNames(t))
      case Some(m) => ReadFields(t, m)
      case None => None
  }

  // ---------------------------------------------------------------------
  // Envelopes
  // ---------------------------------------------------------------------

  function Encode(e: Envelope): Json {
    Obj(map["v" := Number(e.v), "type" := Str(AsWireStr(e.msgType)), "id" := Str(e.id), "ts" := Str(e.ts),
            "from" := Str(e.from), "body" := BodyJson(e.body)])
  }

  /** `v` is read as a 64-bit number and then narrowed with `as u32`. */
  function Version(m: Fields): Option<u32> {
    if "v" in m && m["v"].Number? && 0 <= m["v"].whole < U64_LIMIT then Some(m["v"].whole % 0x1_0000_0000) else None
  }

  function Decode(j: Json): Result<Envelope, DecodeError> {
    if !j.Obj? then Err(Malformed)
    else
      var m := j.fields;
      match (GetStr(m, "type"), Version(m))
      case (None, _) => Err(Malformed)
      case (_, None) => Err(Malformed)
      case (Some(name), Some(v)) =>
        if v != 1 then Err(UnsupportedVersion(v))
        else match (GetStr(m, "id"), GetStr(m, "ts"), GetStr(m, "from"))
          case (Some(id), Some(ts), Some(from)) =>
            if "body" !in m then Err(Malformed)
            else (match ReadBody(FromWire(name), m["body"])
                  case Some(body) => Ok(Envelope(v, FromWire(name), id, ts, from, body))
                  case None => Err(Malformed))
          case _ => Err(Malformed)
  }

  function TypeOf(b: Body): MessageType {
    match b
    case JoinBody(_, _) => Join
    case JoinOkBody(_, _) => JoinOk
    case AuthBody(_) => Auth
    case HelloFrame(_) => Hello
    case PingBody(_) => Ping
    case PongBody(_) => Pong
    case ErrorBody(_, _, _) => Error
    case QueryBody(_, _) => Query
    case QueryOkBody(_) => QueryOk
    case PromptBody(_, _, _) => Prompt
    case ReplyBody(_, _, _, _, _) => Reply
    case InterruptBody(_) => Interrupt
    case AnswerBody(_, _) => Answer
    case PresenceBody(_) => Presence
    case SessionBlockedBody(_, _) => SessionBlocked
    case AckBody(_) => Ack
    case UnknownBody(_) => Unknown
  }

  // ---------------------------------------------------------------------
  // Round trips
  // ---------------------------------------------------------------------

  /** The wire names are pairwise distinct and every one is recognised. */
  lemma WireNamesRoundTrip(t: MessageType)
    ensures FromWire(AsWireStr(t)) == t
  {
  }

  /** The sixteen names on the wire. Any other names a type this client does not
      know, whether spelt `unknown` or not. */
  lemma WireNames(s: string)
    ensures FromWire("join") == Join && FromWire("join_ok") == JoinOk && FromWire("auth") == Auth
    ensures FromWire("hello") == Hello && FromWire("ping") == Ping && FromWire("pong") == Pong
    ensures FromWire("error") == Error && FromWire("query") == Query && FromWire("query_ok") == QueryOk
    ensures FromWire("prompt") == Prompt && FromWire("reply") == Reply && FromWire("interrupt") == Interrupt
    ensures FromWire("answer") == Answer && FromWire("presence") == Presence && FromWire("ack") == Ack
    ensures FromWire("session_blocked") == SessionBlocked
    ensures FromWire(s) == Unknown <==> s !in {"join", "join_ok", "auth", "hello", "ping", "pong", "error", "query",
                                               "query_ok", "prompt", "reply", "interrupt", "answer", "presence",
                                               "session_blocked", "ack"}
    ensures FromWire(s) == Unknown || AsWireStr(FromWire(s)) == s
    ensures AsWireStr(Unknown) == "unknown"
  {
  }

  /** How a role may be spelt: its name, or an object with that one key, to `null`. */
  lemma RoleSpellings(j: Json, name: string)
    requires name == "client" || name == "server"
    ensures ReadRole(j) == Some(if name == "client" then Client else Server)
            <==> j == Str(name) || (j.Obj? && j.fields.Keys == {name} && j.fields[name] == Null)
  {
    assert j.Obj? && j.fields.Keys == {name} && j.fields[name] == Null ==> j.fields == map[name := Null];
    assert "client" != "server";
  }

  lemma {:induction false} StrsRoundTrip(strings: seq<string>)
    ensures ReadStrs(Strs(strings)) == Some(strings)
    ensures Strs(strings) == [] <==> strings == []
  {
    if strings != [] {
      StrsRoundTrip(strings[1..]);
      assert Strs(strings)[1..] == Strs(strings[1..]);
      assert strings == [strings[0]] + strings[1..];
    }
  }

  lemma SessionRoundTrips(s: HelloSession)
    ensures ReadSession(SessionJson(s)) == Some(s)
  {
  }

  lemma {:induction false} SessionsRoundTrip(sessions: seq<HelloSession>)
    ensures ReadSessions(SessionJsons(sessions)) == Some(sessions)
    ensures SessionJsons(sessions) == [] <==> sessions == []
  {
    if sessions != [] {
      SessionsRoundTrip(sessions[1..]);
      assert SessionJsons(sessions)[1..] == SessionJsons(sessions[1..]);
      SessionRoundTrips(sessions[0]);
      assert sessions == [sessions[0]] + sessions[1..];
    }
  }

  lemma HelloKeysDistinct(h: HelloBody)
    ensures DistinctKeys(HelloFields(h))
  {
  }

  lemma ReadsOptStr(m: Fields, key: string, value: Option<string>)
    requires Holds(m, Field(key, StrOption(value)))
    ensures GetOptStr(m, key) == Some(value)
  {
  }

  lemma ReadsStrs(m: Fields, key: string, strings: seq<string>)
    requires Holds(m, Field(key, ListOption(Strs(strings))))
    ensures GetStrs(m, key) == Some(strings)
  {
    StrsRoundTrip(strings);
  }

  ghost predicate HoldsAll(m: Fields, fields: seq<Field>) {
    forall i :: 0 <= i < |fields| ==> Holds(m, fields[i])
  }

  lemma ReadsScalars(m: Fields, h: HelloBody)
    requires HoldsAll(m, HelloFields(h))
    ensures GetU32(m, "protocol") == Some(h.protocol) && GetU32(m, "protocol_min") == Some(h.protocolMin)
    ensures GetU32(m, "protocol_max") == Some(h.protocolMax) && GetRole(m, "role") == Some(h.role)
    ensures GetStr(m, "hostname") == Some(h.hostname)
  {
    var f := HelloFields(h);
    assert Holds(m, f[0]) && Holds(m, f[1]) && Holds(m, f[2]) && Holds(m, f[3]) && Holds(m, f[4]);
  }

  lemma ReadsElided(m: Fields, h: HelloBody)
    requires HoldsAll(m, HelloFields(h))
    ensures GetOptStr(m, "token_id") == Some(h.tokenId) && GetOptStr(m, "client_id") == Some(h.clientId)
    ensures GetStrs(m, "harnesses") == Some(h.harnesses) && GetStrs(m, "harnesses_known") == Some(h.harnessesKnown)
    ensures GetStrs(m, "harnesses_confirmed") == Some(h.harnessesConfirmed)
            && GetStrs(m, "features") == Some(h.features)
    ensures GetSessions(m, "sessions") == Some(h.sessions)
  {
    var f := HelloFields(h);
    assert Holds(m, f[5]) && Holds(m, f[6]) && Holds(m, f[7]) && Holds(m, f[8]);
    assert Holds(m, f[9]) && Holds(m, f[10]) && Holds(m, f[11]);
    ReadsOptStr(m, "token_id", h.tokenId);
    ReadsOptStr(m, "client_id", h.clientId);
    ReadsStrs(m, "harnesses", h.harnesses);
    ReadsStrs(m, "harnesses_known", h.harnessesKnown);
    ReadsStrs(m, "harnesses_confirmed", h.harnessesConfirmed);
    ReadsStrs(m, "features", h.features);
    SessionsRoundTrip(h.sessions);
  }

  lemma ReadHelloMeaning(m: Fields, h: HelloBody)
    requires HoldsAll(m, HelloFields(h))
    ensures ReadHello(m) == Some(h)
  {
    ReadsScalars(m, h);
    ReadsElided(m, h);
  }

  lemma HelloRoundTrips(h: HelloBody)
    ensures ReadHello(Build(HelloFields(h))) == Some(h)
  {
    HelloKeysDistinct(h);
    BuildHolds(HelloFields(h));
    ReadHelloMeaning(Build(HelloFields(h)), h);
  }

  lemma ReadsReply(m: Fields, session: string, said: Option<string>, chunks: seq<string>, done: bool, exit: Option<i64>)
    requires HoldsAll(m, ReplyFields(session, said, chunks, done, exit))
    ensures GetStr(m, "session") == Some(session) && GetOptStr(m, "text") == Some(said)
    ensures GetStrs(m, "chunks") == Some(chunks)
    ensures GetBoolOr(m, "done") == Some(done) && GetOptI64(m, "exit") == Some(exit)
  {
    var f := ReplyFields(session, said, chunks, done, exit);
    assert Holds(m, f[0]) && Holds(m, f[1]) && Holds(m, f[2]) && Holds(m, f[3]) && Holds(m, f[4]);
    ReadsOptStr(m, "text", said);
    ReadsStrs(m, "chunks", chunks);
  }

  lemma ReplyRoundTrips(session: string, said: Option<string>, chunks: seq<string>, done: bool, exit: Option<i64>)
    ensures ReadReply(Build(ReplyFields(session, said, chunks, done, exit)))
            == Some(ReplyBody(session, said, chunks, done, exit))
  {
    var f := ReplyFields(session, said, chunks, done, exit);
    BuildHolds(f);
    ReadsReply(Build(f), session, said, chunks, done, exit);
  }

  lemma OneField(f: Field)
    ensures Holds(Build([f]), f)
  {
    assert Front([f]) == [];
  }

  lemma OptionalStringRoundTrips(key: string, value: Option<string>)
    ensures GetOptStr(Build([Field(key, StrOption(value))]), key) == Some(value)
  {
    OneField(Field(key, StrOption(value)));
    ReadsOptStr(Build([Field(key, StrOption(value))]), key, value);
  }

  lemma ThreeFields(f: seq<Field>)
    requires |f| == 3 && DistinctKeys(f)
    ensures Holds(Build(f), f[0]) && Holds(Build(f), f[1]) && Holds(Build(f), f[2])
  {
    BuildHolds(f);
  }

  lemma ErrorRoundTrips(code: string, failed: Option<string>, message: Option<string>)
    ensures ReadFields(Error, Build(ErrorFields(code, failed, message))) == Some(ErrorBody(code, failed, message))
  {
    var f := ErrorFields(code, failed, message);
    ThreeFields(f);
    ReadsOptStr(Build(f), "cmd", failed);
    ReadsOptStr(Build(f), "message", message);
  }

  lemma PromptRoundTripsIff(session: string, text: string, meta: Option<Json>)
    ensures ReadFields(Prompt, Build(PromptFields(session, text, meta))) == Some(PromptBody(session, text, meta))
            <==> meta != Some(Null)
  {
    ThreeFields(PromptFields(session, text, meta));
  }

  lemma HelloBodyRoundTrips(h: HelloBody)
    ensures ReadBody(Hello, BodyJson(HelloFrame(h))) == Some(HelloFrame(h))
  {
    HelloRoundTrips(h);
  }

  lemma ReplyBodyRoundTrips(b: Body)
    requires b.ReplyBody?
    ensures ReadBody(Reply, BodyJson(b)) == Some(b)
  {
    ReplyRoundTrips(b.session, b.said, b.chunks, b.done, b.exit);
  }

  lemma OptionalBodyRoundTrips(b: Body)
    requires b.PingBody? || b.PongBody? || b.AckBody? || b.ErrorBody? || b.QueryBody?
    ensures ReadBody(TypeOf(b), BodyJson(b)) == Some(b)
  {
    if b.PingBody? || b.PongBody? {
      OptionalStringRoundTrips("hostname", b.hostname);
    } else if b.AckBody? {
      OptionalStringRoundTrips("of", b.of);
    } else if b.ErrorBody? {
      ErrorRoundTrips(b.code, b.failed, b.message);
    } else {
      StrsRoundTrip(b.args);
    }
  }

  lemma PromptBodyRoundTripsIff(b: Body)
    requires b.PromptBody?
    ensures ReadBody(Prompt, BodyJson(b)) == Some(b) <==> b.meta != Some(Null)
  {
    PromptRoundTripsIff(b.session, b.text, b.meta);
  }

  lemma SimpleBodyRoundTrips(b: Body)
    requires b.JoinBody? || b.JoinOkBody? || b.AuthBody? || b.QueryOkBody? || b.InterruptBody? || b.AnswerBody?
             || b.PresenceBody? || b.SessionBlockedBody? || b.UnknownBody?
    ensures ReadBody(TypeOf(b), BodyJson(b)) == Some(b)
  {
  }

  lemma BodyRoundTripsIff(b: Body)
    ensures ReadBody(TypeOf(b), BodyJson(b)) == Some(b) <==> !(b.PromptBody? && b.meta == Some(Null))
  {
    if b.HelloFrame? {
      HelloBodyRoundTrips(b.hello);
    } else if b.ReplyBody? {
      ReplyBodyRoundTrips(b);
    } else if b.PromptBody? {
      PromptBodyRoundTripsIff(b);
    } else if b.PingBody? || b.PongBody? || b.AckBody? || b.ErrorBody? || b.QueryBody? {
      OptionalBodyRoundTrips(b);
    } else {
      SimpleBodyRoundTrips(b);
    }
  }

  lemma FieldPresence(fields: seq<Field>, i: nat)
    requires DistinctKeys(fields) && i < |fields|
    ensures fields[i].key in Build(fields) <==> fields[i].value.Some?
  {
    BuildHolds(fields);
  }

  /** Optional fields are elided exactly when they hold nothing; no frame spends
      bytes on an empty list or on a `null`. */
  lemma HelloElidesIff(h: HelloBody)
    ensures var m := Build(HelloFields(h));
            && ("token_id" in m <==> h.tokenId.Some?) && ("client_id" in m <==> h.clientId.Some?)
            && ("harnesses" in m <==> h.harnesses != []) && ("harnesses_known" in m <==> h.harnessesKnown != [])
            && ("harnesses_confirmed" in m <==> h.harnessesConfirmed != []) && ("features" in m <==> h.features != [])
            && ("sessions" in m <==> h.sessions != [])
  {
    HelloKeysDistinct(h);
    var f := HelloFields(h);
    FieldPresence(f, 5);
    FieldPresence(f, 6);
    FieldPresence(f, 7);
    FieldPresence(f, 8);
    FieldPresence(f, 9);
    FieldPresence(f, 10);
    FieldPresence(f, 11);
  }

  lemma ReplyElidesIff(session: string, said: Option<string>, chunks: seq<string>, done: bool, exit: Option<i64>)
    ensures var m := Build(ReplyFields(session, said, chunks, done, exit));
            && "session" in m && "done" in m
            && ("text" in m <==> said.Some?) && ("chunks" in m <==> chunks != []) && ("exit" in m <==> exit.Some?)
  {
    var f := ReplyFields(session, said, chunks, done, exit);
    FieldPresence(f, 0);
    FieldPresence(f, 1);
    FieldPresence(f, 2);
    FieldPresence(f, 3);
    FieldPresence(f, 4);
  }

  lemma HeaderReads(e: Envelope)
    ensures var m := Encode(e).fields;
            && GetStr(m, "type") == Some(AsWireStr(e.msgType)) && Version(m) == Some(e.v)
            && GetStr(m, "id") == Some(e.id) && GetStr(m, "ts") == Some(e.ts) && GetStr(m, "from") == Some(e.from)
            && "body" in m && m["body"] == BodyJson(e.body)
  {
  }

  /** Decoding undoes encoding for every version-1 envelope whose body matches
      its type, over every elided field, except a prompt whose `meta` is an
      explicit `null`: that reads back as no `meta` at all. */
  lemma EnvelopeRoundTripsIff(e: Envelope)
    requires e.v == 1 && e.msgType == TypeOf(e.body)
    ensures Decode(Encode(e)) == Ok(e) <==> !(e.body.PromptBody? && e.body.meta == Some(Null))
  {
    WireNamesRoundTrip(e.msgType);
    BodyRoundTripsIff(e.body);
    HeaderReads(e);
  }

  lemma ReadFieldsIsTyped(t: MessageType, m: Fields)
    ensures ReadFields(t, m).Some? ==>
              TypeOf(ReadFields(t, m).value) == t && (t == Unknown ==> ReadFields(t, m).value.raw == Obj(m))
  {
    match t
    case Join => case JoinOk => case Auth => case Hello => case Ping => case Pong =>
    case Error => case Query => case QueryOk => case Prompt => case Reply => case Interrupt =>
    case Answer => case Presence => case SessionBlocked => case Ack => case Unknown =>
  }

  lemma ReadIsTyped(t: MessageType, j: Json)
    ensures ReadBody(t, j).Some? ==>
              var b := ReadBody(t, j).value;
              TypeOf(b) == t && (b.UnknownBody? ==> b.raw == j)
  {
    hide ReadFields, FieldNames;
    if t != QueryOk && t != Unknown && StructFields(j, FieldNames(t)).Some? {
      ReadFieldsIsTyped(t, StructFields(j, FieldNames(t)).value);
    }
  }

  lemma {:induction false} PositionalHolds(names: seq<string>, items: seq<Json>)
    requires |items| <= |names| && NoDuplicates(names)
    ensures forall i :: 0 <= i < |names| ==> (names[i] in Positional(names, items) <==> i < |items|)
    ensures forall i :: 0 <= i < |items| ==> Positional(names, items)[names[i]] == items[i]
  {
    if items != [] {
      PositionalHolds(names, Front(items));
    }
  }

  lemma FieldNamesDistinct(t: MessageType)
    ensures NoDuplicates(FieldNames(t))
  {
    match t
    case Join => case JoinOk => case Auth => case Hello => case Ping => case Pong =>
    case Error => case Query => case QueryOk => case Prompt => case Reply => case Interrupt =>
    case Answer => case Presence => case SessionBlocked => case Ack => case Unknown =>
  }

  lemma {:induction false} PositionalKeys(names: seq<string>, items: seq<Json>)
    requires |items| <= |names|
    ensures Positional(names, items).Keys == set i | 0 <= i < |items| :: names[i]
  {
    if items != [] {
      PositionalKeys(names, Front(items));
    }
  }

  /** A body sent as an array reads as the object that gives each item, in
      declared order, to its own field. */
  lemma ArrayBodiesReadByPosition(t: MessageType, items: seq<Json>, m: Fields)
    requires t != QueryOk && t != Unknown
    requires |items| <= |FieldNames(t)| && m.Keys == set i | 0 <= i < |items| :: FieldNames(t)[i]
    requires forall i :: 0 <= i < |items| ==> m[FieldNames(t)[i]] == items[i]
    ensures ReadBody(t, Arr(items)) == ReadBody(t, Obj(m))
  {
    hide ReadFields, FieldNames;
    var names := FieldNames(t);
    FieldNamesDistinct(t);
    PositionalHolds(names, items);
    PositionalKeys(names, items);
    assert Positional(names, items) == m;
  }

  /** Whatever decodes carries version 1, a type named by the frame and a body
      of that type; a type this client does not know keeps its body whole. */
  lemma DecodedIsWellTyped(j: Json)
    ensures Decode(j).Ok? ==>
              var e := Decode(j).value;
              && e.v == 1 && TypeOf(e.body) == e.msgType
              && (e.body.UnknownBody? ==> j.fields["body"] == e.body.raw)
  {
    if Decode(j).Ok? {
      ReadIsTyped(Decode(j).value.msgType, j.fields["body"]);
    }
  }

  /** A frame is refused for its version exactly when it is an object with a type
      and an unsigned 64-bit `v` that, narrowed to 32 bits, is not 1; the refusal
      names the narrowed number. Any other refusal is for being malformed. */
  lemma VersionCheckIsModulo(j: Json, v: u32)
    ensures Decode(j) == Err(UnsupportedVersion(v))
            <==> && j.Obj? && GetStr(j.fields, "type").Some? && "v" in j.fields && j.fields["v"].Number?
                 && 0 <= j.fields["v"].whole < 0x1_0000_0000_0000_0000
                 && v == j.fields["v"].whole % 0x1_0000_0000 && v != 1
  {
  }

  /** So the check is not `v == 1`: the envelope of any version-1 frame, sent with
      `v` 2^32 + 1 or any other number that narrows to 1, decodes all the same. */
  lemma OtherVersionsPass(m: Fields, v: int)
    requires Decode(Obj(m)).Ok? && 0 <= v < U64_LIMIT && v % 0x1_0000_0000 == 1
    ensures Decode(Obj(m["v" := Number(v)])) == Decode(Obj(m))
  {
    hide ReadBody, FromWire;
    var n := m["v" := Number(v)];
    assert GetStr(n, "type") == GetStr(m, "type") && GetStr(n, "id") == GetStr(m, "id");
    assert GetStr(n, "ts") == GetStr(m, "ts") && GetStr(n, "from") == GetStr(m, "from");
  }

  lemma EncodesObject(e: Envelope)
    ensures Encode(e).Obj? && Encode(e) == Obj(Encode(e).fields)
  {
  }

  lemma FourBillionAndOnePasses(e: Envelope)
    requires e.v == 1 && e.msgType == TypeOf(e.body) && !(e.body.PromptBody? && e.body.meta == Some(Null))
    ensures Decode(Obj(Encode(e).fields["v" := Number(0x1_0000_0001)])) == Ok(e)
  {
    hide Decode, Encode;
    EnvelopeRoundTripsIff(e);
    EncodesObject(e);
    OtherVersionsPass(Encode(e).fields, 0x1_0000_0001);
  }

  // ---------------------------------------------------------------------
  // Keys on the wire
  // ---------------------------------------------------------------------

  function KeyIf(present: bool, key: string): set<string> {
    if present then {key} else {}
  }

  /** The keys each body is sent with; for a hello see `HelloKeys`, for a reply
      `ReplyKeys`. A body of another kind is sent as it is. */
  function KeysSent(b: Body): set<string>
    requires !b.HelloFrame? && !b.ReplyBody? && !b.QueryOkBody? && !b.UnknownBody?
  {
    match b
    case JoinBody(_, _) => {"secret", "hostname"}
    case JoinOkBody(_, _) => {"client_id", "credential"}
    case AuthBody(_) => {"credential"}
    case PingBody(hostname) => KeyIf(hostname.Some?, "hostname")
    case PongBody(hostname) => KeyIf(hostname.Some?, "hostname")
    case ErrorBody(_, failed, message) => {"code"} + KeyIf(failed.Some?, "cmd") + KeyIf(message.Some?, "message")
    case QueryBody(_, _) => {"cmd", "args"}
    case PromptBody(_, _, meta) => {"session", "text"} + KeyIf(meta.Some?, "meta")
    case InterruptBody(_) => {"session"}
    case AnswerBody(_, _) => {"session", "choice"}
    case PresenceBody(_) => {"sessions"}
    case SessionBlockedBody(_, _) => {"session", "blocked"}
    case AckBody(of) => KeyIf(of.Some?, "of")
  }

  lemma BuildKeys(fields: seq<Field>)
    requires DistinctKeys(fields)
    ensures Build(fields).Keys == set i | 0 <= i < |fields| && fields[i].value.Some? :: fields[i].key
  {
    BuildHolds(fields);
    forall i | 0 <= i < |fields| ensures fields[i].key in Build(fields) <==> fields[i].value.Some? {
      FieldPresence(fields, i);
    }
  }

  lemma HelloKeyNames(h: HelloBody, i: nat)
    requires i < 12
    ensures HelloFields(h)[i].key in {"protocol", "protocol_min", "protocol_max", "role", "hostname", "token_id",
                                      "client_id", "harnesses", "harnesses_known", "harnesses_confirmed", "features",
                                      "sessions"}
  {
  }

  lemma HelloRequired(h: HelloBody)
    ensures var m := Build(HelloFields(h));
            "protocol" in m && "protocol_min" in m && "protocol_max" in m && "role" in m && "hostname" in m
  {
    HelloKeysDistinct(h);
    var f := HelloFields(h);
    FieldPresence(f, 0);
    FieldPresence(f, 1);
    FieldPresence(f, 2);
    FieldPresence(f, 3);
    FieldPresence(f, 4);
  }

  lemma HelloFieldCount(h: HelloBody)
    ensures |HelloFields(h)| == 12
  {
  }

  /** A hello is sent with its five required keys, and never with any but these
      twelve; `HelloElidesIff` says which of the other seven. */
  lemma HelloKeys(h: HelloBody)
    ensures var m := Build(HelloFields(h));
            && "protocol" in m && "protocol_min" in m && "protocol_max" in m && "role" in m && "hostname" in m
            && forall key :: key in m ==>
                 key in {"protocol", "protocol_min", "protocol_max", "role", "hostname", "token_id", "client_id",
                         "harnesses", "harnesses_known", "harnesses_confirmed", "features", "sessions"}
  {
    hide HelloFields, Build;
    HelloKeysDistinct(h);
    HelloRequired(h);
    BuildHolds(HelloFields(h));
    forall key | key in Build(HelloFields(h))
      ensures key in {"protocol", "protocol_min", "protocol_max", "role", "hostname", "token_id", "client_id",
                      "harnesses", "harnesses_known", "harnesses_confirmed", "features", "sessions"}
    {
      var i :| 0 <= i < |HelloFields(h)| && HelloFields(h)[i].key == key;
      HelloFieldCount(h);
      HelloKeyNames(h, i);
    }
  }

  /** A reply is never sent with any but these five keys; `ReplyElidesIff` says
      which of them. */
  lemma ReplyKeys(session: string, said: Option<string>, chunks: seq<string>, done: bool, exit: Option<i64>)
    ensures forall key :: key in Build(ReplyFields(session, said, chunks, done, exit)) ==>
              key in {"session", "text", "chunks", "done", "exit"}
  {
    var f := ReplyFields(session, said, chunks, done, exit);
    BuildHolds(f);
  }

  lemma ThreeKeys(f: seq<Field>)
    requires |f| == 3 && DistinctKeys(f)
    ensures Build(f).Keys
            == KeyIf(f[0].value.Some?, f[0].key) + KeyIf(f[1].value.Some?, f[1].key) + KeyIf(f[2].value.Some?, f[2].key)
  {
    BuildKeys(f);
  }

  lemma OneKey(f: Field)
    ensures Build([f]).Keys == KeyIf(f.value.Some?, f.key)
  {
    BuildKeys([f]);
    assert [f][0] == f;
  }

  /** Each body is sent with exactly these keys: the required ones, and of the
      others those that hold something. */
  lemma BodyKeys(b: Body)
    requires !b.HelloFrame? && !b.ReplyBody? && !b.QueryOkBody? && !b.UnknownBody?
    ensures BodyJson(b).Obj? && BodyJson(b).fields.Keys == KeysSent(b)
  {
    match b
    case PingBody(hostname) => OneKey(Field("hostname", StrOption(hostname)));
    case PongBody(hostname) => OneKey(Field("hostname", StrOption(hostname)));
    case AckBody(of) => OneKey(Field("of", StrOption(of)));
    case ErrorBody(code, failed, message) => ThreeKeys(ErrorFields(code, failed, message));
    case PromptBody(session, text, meta) => ThreeKeys(PromptFields(session, text, meta));
    case _ =>
  }

  // ---------------------------------------------------------------------
  // What is read of a body that someone else wrote
  // ---------------------------------------------------------------------

  /** The keys a body of this type cannot do without. */
  function Required(t: MessageType): set<string> {
    match t
    case Join => {"secret", "hostname"}
    case JoinOk => {"client_id", "credential"}
    case Auth => {"credential"}
    case Hello => {"protocol", "protocol_min", "protocol_max", "role", "hostname"}
    case Error => {"code"}
    case Query => {"cmd"}
    case Prompt => {"session", "text"}
    case Reply => {"session"}
    case Interrupt => {"session"}
    case Answer => {"session", "choice"}
    case Presence => {"sessions"}
    case SessionBlocked => {"session", "blocked"}
    case _ => {}
  }

  /** The keys under which `null` says the same as leaving the key out. */
  function Nullable(t: MessageType): set<string> {
    match t
    case Hello => {"token_id", "client_id"}
    case Ping => {"hostname"}
    case Pong => {"hostname"}
    case Error => {"cmd", "message"}
    case Prompt => {"meta"}
    case Reply => {"text", "exit"}
    case Ack => {"of"}
    case _ => {}
  }

  /** The keys that may be left out but not `null`: lists and flags. */
  function Defaulted(t: MessageType): set<string> {
    match t
    case Hello => {"harnesses", "harnesses_known", "harnesses_confirmed", "features", "sessions"}
    case Query => {"args"}
    case Reply => {"chunks", "done"}
    case _ => {}
  }

  /** What every reader of a field makes of `null` or of a missing key. */
  lemma Unread(m: Fields, key: string)
    requires key in m ==> m[key] == Null
    ensures GetStr(m, key).None? && GetU32(m, key).None? && GetRole(m, key).None? && GetBool(m, key).None?
    ensures key in m ==> GetStrs(m, key).None? && GetSessions(m, key).None? && GetBoolOr(m, key).None?
    ensures GetOptStr(m, key) == Some(None) && GetOptI64(m, key) == Some(None) && GetOptJson(m, key) == None
  {
  }

  /** Every reader makes the same of the two objects under this key. */
  ghost predicate SameUnder(m: Fields, n: Fields, key: string) {
    && GetStr(m, key) == GetStr(n, key) && GetU32(m, key) == GetU32(n, key) && GetRole(m, key) == GetRole(n, key)
    && GetBool(m, key) == GetBool(n, key) && GetStrs(m, key) == GetStrs(n, key)
    && GetSessions(m, key) == GetSessions(n, key) && GetBoolOr(m, key) == GetBoolOr(n, key)
    && GetOptStr(m, key) == GetOptStr(n, key) && GetOptI64(m, key) == GetOptI64(n, key)
    && GetOptJson(m, key) == GetOptJson(n, key)
  }

  /** Readers of a field look under its key only. */
  lemma SameReads(m: Fields, n: Fields, key: string)
    requires key in m <==> key in n
    requires key in m ==> m[key] == n[key]
    ensures SameUnder(m, n, key)
  {
  }

  lemma HelloAlike(m: Fields, n: Fields)
    requires SameUnder(m, n, "protocol") && SameUnder(m, n, "protocol_min") && SameUnder(m, n, "protocol_max")
    requires SameUnder(m, n, "role") && SameUnder(m, n, "hostname")
    requires SameUnder(m, n, "harnesses") && SameUnder(m, n, "harnesses_known")
    requires SameUnder(m, n, "harnesses_confirmed") && SameUnder(m, n, "features") && SameUnder(m, n, "sessions")
    requires GetOptStr(m, "token_id") == GetOptStr(n, "token_id")
    requires GetOptStr(m, "client_id") == GetOptStr(n, "client_id")
    ensures ReadHello(m) == ReadHello(n)
  {
    hide GetStr, GetU32, GetRole, GetBool, GetStrs, GetSessions, GetBoolOr, GetOptStr, GetOptI64, GetOptJson;
  }

  /** The keys of a type's fields. */
  function KeysOf(t: MessageType): set<string> {
    Required(t) + Nullable(t) + Defaulted(t)
  }

  lemma OptionsUnder(m: Fields, n: Fields, key: string)
    requires SameUnder(m, n, key)
    ensures GetOptStr(m, key) == GetOptStr(n, key)
  {
  }

  lemma HelloOtherKeys(m: Fields, key: string, value: Json)
    requires key !in KeysOf(Hello)
    ensures ReadHello(m[key := value]) == ReadHello(m)
  {
    var n := m[key := value];
    hide GetStr, GetU32, GetRole, GetBool, GetStrs, GetSessions, GetBoolOr, GetOptStr, GetOptI64, GetOptJson;
    hide ReadHello, SameUnder;
    forall other | other != key ensures SameUnder(n, m, other) {
      SameReads(n, m, other);
    }
    OptionsUnder(n, m, "token_id");
    OptionsUnder(n, m, "client_id");
    HelloAlike(n, m);
  }

  lemma FewOtherKeys(t: MessageType, m: Fields, key: string, value: Json)
    requires t.Reply? || t.Error? || t.Prompt?
    requires key !in KeysOf(t)
    ensures ReadBody(t, Obj(m[key := value])) == ReadBody(t, Obj(m))
  {
    var n := m[key := value];
    hide GetStr, GetU32, GetRole, GetBool, GetStrs, GetSessions, GetBoolOr, GetOptStr, GetOptI64, GetOptJson;
    forall other | other != key ensures SameUnder(n, m, other) {
      SameReads(n, m, other);
    }
    match t
    case Reply =>
      assert SameUnder(n, m, "session") && SameUnder(n, m, "text") && SameUnder(n, m, "chunks");
      assert SameUnder(n, m, "done") && SameUnder(n, m, "exit");
    case Error => assert SameUnder(n, m, "code") && SameUnder(n, m, "cmd") && SameUnder(n, m, "message");
    case Prompt => assert SameUnder(n, m, "session") && SameUnder(n, m, "text") && SameUnder(n, m, "meta");
  }

  lemma LittleOtherKeys(t: MessageType, m: Fields, key: string, value: Json)
    requires t.Join? || t.JoinOk? || t.Auth? || t.Ping? || t.Pong? || t.Query? || t.Interrupt? || t.Answer?
             || t.Presence? || t.SessionBlocked? || t.Ack?
    requires key !in KeysOf(t)
    ensures ReadBody(t, Obj(m[key := value])) == ReadBody(t, Obj(m))
  {
    match t
    case Join => case JoinOk => case Auth => case Ping => case Pong => case Query => case Interrupt =>
    case Answer => case Presence => case SessionBlocked => case Ack =>
  }

  /** Keys of no field of this type are not looked at. */
  lemma OtherKeysIgnored(t: MessageType, m: Fields, key: string, value: Json)
    requires t != QueryOk && t != Unknown && key !in KeysOf(t)
    ensures ReadBody(t, Obj(m[key := value])) == ReadBody(t, Obj(m))
  {
    match t
    case Hello =>
      hide ReadHello;
      HelloOtherKeys(m, key, value);
    case Reply => FewOtherKeys(t, m, key, value);
    case Error => FewOtherKeys(t, m, key, value);
    case Prompt => FewOtherKeys(t, m, key, value);
    case _ => LittleOtherKeys(t, m, key, value);
  }

  /** Without a required key, or with `null` under it or under a defaulted one, a
      body is refused. */
  lemma MissingOrNullRefused(t: MessageType, m: Fields, key: string)
    requires if key in m then m[key] == Null && key in Required(t) + Defaulted(t) else key in Required(t)
    ensures ReadBody(t, Obj(m)).None?
  {
    hide GetStr, GetU32, GetRole, GetBool, GetStrs, GetSessions, GetBoolOr, GetOptStr, GetOptI64, GetOptJson;
    Unread(m, key);
    match t
    case Hello => case Join => case JoinOk => case Auth => case Error => case Query => case Prompt => case Reply =>
    case Interrupt => case Answer => case Presence => case SessionBlocked =>
  }

  lemma HelloDefaults(m: Fields)
    requires ReadHello(m).Some?
    ensures var h := ReadHello(m).value;
            && ("token_id" !in m ==> h.tokenId == None) && ("client_id" !in m ==> h.clientId == None)
            && ("harnesses" !in m ==> h.harnesses == []) && ("harnesses_known" !in m ==> h.harnessesKnown == [])
            && ("harnesses_confirmed" !in m ==> h.harnessesConfirmed == [])
            && ("features" !in m ==> h.features == []) && ("sessions" !in m ==> h.sessions == [])
  {
  }

  /** What is left out of a body that can be read is empty, unset or `false`. */
  lemma MissingIsDefault(t: MessageType, m: Fields)
    requires ReadBody(t, Obj(m)).Some?
    ensures match ReadBody(t, Obj(m)).value
            case HelloFrame(h) =>
              && ("token_id" !in m ==> h.tokenId == None) && ("client_id" !in m ==> h.clientId == None)
              && ("harnesses" !in m ==> h.harnesses == []) && ("harnesses_known" !in m ==> h.harnessesKnown == [])
              && ("harnesses_confirmed" !in m ==> h.harnessesConfirmed == [])
              && ("features" !in m ==> h.features == []) && ("sessions" !in m ==> h.sessions == [])
            case PingBody(hostname) => "hostname" !in m ==> hostname == None
            case PongBody(hostname) => "hostname" !in m ==> hostname == None
            case ErrorBody(_, failed, message) =>
              ("cmd" !in m ==> failed == None) && ("message" !in m ==> message == None)
            case QueryBody(_, args) => "args" !in m ==> args == []
            case PromptBody(_, _, meta) => "meta" !in m ==> meta == None
            case ReplyBody(_, said, chunks, done, exit) =>
              && ("text" !in m ==> said == None) && ("chunks" !in m ==> chunks == []) && ("done" !in m ==> !done)
              && ("exit" !in m ==> exit == None)
            case AckBody(of) => "of" !in m ==> of == None
            case _ => true
  {
    match t
    case Hello => HelloDefaults(m);
    case Join => case JoinOk => case Auth => case Ping => case Pong =>
    case Error => case Query => case QueryOk => case Prompt => case Reply => case Interrupt =>
    case Answer => case Presence => case SessionBlocked => case Ack => case Unknown =>
  }

  /** A given key is given as this value. */
  ghost predicate Given(m: Fields, key: string, value: Json) {
    key in m && m[key] == value
  }

  /** A key that is given, and not as `null`, is given as the value read. */
  ghost predicate GivenIf(m: Fields, key: string, value: Option<Json>) {
    match value
    case Some(j) => Given(m, key, j)
    case None => key !in m || m[key] == Null
  }

  lemma {:induction false} ReadStrsIsThere(items: seq<Json>)
    ensures ReadStrs(items).Some? ==> items == Strs(ReadStrs(items).value)
  {
    if items != [] {
      ReadStrsIsThere(items[1..]);
      assert items == [items[0]] + items[1..];
    }
  }

  ghost predicate GivenStrs(m: Fields, key: string, strings: seq<string>) {
    if key in m then m[key] == Arr(Strs(strings)) else strings == []
  }

  lemma StrsAreThere(m: Fields, key: string)
    ensures GetStrs(m, key).Some? ==> GivenStrs(m, key, GetStrs(m, key).value)
  {
    if key in m && m[key].Arr? {
      ReadStrsIsThere(m[key].items);
    }
  }

  lemma HelloIsThere(m: Fields)
    requires ReadHello(m).Some?
    ensures var h := ReadHello(m).value;
            && Given(m, "protocol", Number(h.protocol)) && Given(m, "protocol_min", Number(h.protocolMin))
            && Given(m, "protocol_max", Number(h.protocolMax)) && Given(m, "hostname", Str(h.hostname))
            && GivenIf(m, "token_id", StrOption(h.tokenId)) && GivenIf(m, "client_id", StrOption(h.clientId))
            && GivenStrs(m, "harnesses", h.harnesses) && GivenStrs(m, "harnesses_known", h.harnessesKnown)
            && GivenStrs(m, "harnesses_confirmed", h.harnessesConfirmed) && GivenStrs(m, "features", h.features)
  {
    hide GetStrs, GivenStrs;
    StrsAreThere(m, "harnesses");
    StrsAreThere(m, "harnesses_known");
    StrsAreThere(m, "harnesses_confirmed");
    StrsAreThere(m, "features");
  }

  /** Nothing is made up or cut down to fit: each field is read exactly as given,
      numbers included, or the body is refused. */
  lemma BodyIsThere(t: MessageType, m: Fields)
    requires ReadBody(t, Obj(m)).Some?
    ensures match ReadBody(t, Obj(m)).value
            case JoinBody(secret, machine) => Given(m, "secret", Str(secret)) && Given(m, "hostname", Str(machine))
            case JoinOkBody(clientId, credential) =>
              Given(m, "client_id", Str(clientId)) && Given(m, "credential", Str(credential))
            case AuthBody(credential) => Given(m, "credential", Str(credential))
            case HelloFrame(h) => ReadHello(m) == Some(h)
            case PingBody(hostname) => GivenIf(m, "hostname", StrOption(hostname))
            case PongBody(hostname) => GivenIf(m, "hostname", StrOption(hostname))
            case ErrorBody(code, failed, message) =>
              && Given(m, "code", Str(code)) && GivenIf(m, "cmd", StrOption(failed))
              && GivenIf(m, "message", StrOption(message))
            case QueryBody(cmd, args) => Given(m, "cmd", Str(cmd)) && GivenStrs(m, "args", args)
            case QueryOkBody(raw) => raw == Obj(m)
            case PromptBody(session, text, meta) =>
              Given(m, "session", Str(session)) && Given(m, "text", Str(text)) && GivenIf(m, "meta", meta)
            case ReplyBody(session, said, chunks, done, exit) =>
              && Given(m, "session", Str(session)) && GivenIf(m, "text", StrOption(said))
              && GivenStrs(m, "chunks", chunks) && ("done" in m ==> m["done"] == Bool(done))
              && GivenIf(m, "exit", if exit.Some? then Some(Number(exit.value)) else None)
            case InterruptBody(session) => Given(m, "session", Str(session))
            case AnswerBody(session, choice) => Given(m, "session", Str(session)) && Given(m, "choice", Str(choice))
            case PresenceBody(rows) => Given(m, "sessions", Arr(rows))
            case SessionBlockedBody(session, blocked) =>
              Given(m, "session", Str(session)) && Given(m, "blocked", Bool(blocked))
            case AckBody(of) => GivenIf(m, "of", StrOption(of))
            case UnknownBody(raw) => raw == Obj(m)
  {
    hide GetStrs, GivenStrs, ReadHello;
    StrsAreThere(m, "args");
    StrsAreThere(m, "chunks");
    match t
    case Hello => case Join => case JoinOk => case Auth => case Ping => case Pong =>
    case Error => case Query => case QueryOk => case Prompt => case Reply => case Interrupt =>
    case Answer => case Presence => case SessionBlocked => case Ack => case Unknown =>
  }

  /** Leaving a key out spoils no other, nor its own if that has a default. */
  lemma Without(m: Fields, key: string, other: string)
    ensures other != key ==>
              && GetStr(m - {key}, other) == GetStr(m, other) && GetU32(m - {key}, other) == GetU32(m, other)
              && GetRole(m - {key}, other) == GetRole(m, other)
    ensures GetOptStr(m, other).Some? ==> GetOptStr(m - {key}, other).Some?
    ensures GetOptI64(m, other).Some? ==> GetOptI64(m - {key}, other).Some?
    ensures GetStrs(m, other).Some? ==> GetStrs(m - {key}, other).Some?
    ensures GetSessions(m, other).Some? ==> GetSessions(m - {key}, other).Some?
    ensures GetBoolOr(m, other).Some? ==> GetBoolOr(m - {key}, other).Some?
  {
  }

  lemma HelloWithout(m: Fields, key: string)
    requires key in Nullable(Hello) + Defaulted(Hello) && ReadHello(m).Some?
    ensures ReadHello(m - {key}).Some?
  {
    hide GetStr, GetU32, GetRole, GetBool, GetStrs, GetSessions, GetBoolOr, GetOptStr, GetOptI64, GetOptJson;
    Without(m, key, "protocol");
    Without(m, key, "protocol_min");
    Without(m, key, "protocol_max");
    Without(m, key, "role");
    Without(m, key, "hostname");
    Without(m, key, "token_id");
    Without(m, key, "client_id");
    Without(m, key, "harnesses");
    Without(m, key, "harnesses_known");
    Without(m, key, "harnesses_confirmed");
    Without(m, key, "features");
    Without(m, key, "sessions");
  }

  lemma ReplyWithout(m: Fields, key: string)
    requires key in Nullable(Reply) + Defaulted(Reply) && ReadReply(m).Some?
    ensures ReadReply(m - {key}).Some?
  {
    hide GetStr, GetU32, GetRole, GetBool, GetStrs, GetSessions, GetBoolOr, GetOptStr, GetOptI64, GetOptJson;
    Without(m, key, "session");
    Without(m, key, "text");
    Without(m, key, "chunks");
    Without(m, key, "done");
    Without(m, key, "exit");
  }

  lemma FewWithout(t: MessageType, m: Fields, key: string)
    requires t != Hello && t != Reply && key in Nullable(t) + Defaulted(t) && ReadBody(t, Obj(m)).Some?
    ensures ReadBody(t, Obj(m - {key})).Some?
  {
    hide GetStr, GetU32, GetRole, GetBool, GetStrs, GetSessions, GetBoolOr, GetOptStr, GetOptI64, GetOptJson;
    match t
    case Error =>
      Without(m, key, "code");
      Without(m, key, "cmd");
      Without(m, key, "message");
    case Query =>
      Without(m, key, "cmd");
      Without(m, key, "args");
    case Prompt =>
      Without(m, key, "session");
      Without(m, key, "text");
    case Ping => Without(m, key, "hostname");
    case Pong => Without(m, key, "hostname");
    case Ack => Without(m, key, "of");
  }

  /** A body that can be read can still be read without any key but the required. */
  lemma OptionalMayBeLeftOut(t: MessageType, m: Fields, key: string)
    requires key in Nullable(t) + Defaulted(t) && ReadBody(t, Obj(m)).Some?
    ensures ReadBody(t, Obj(m - {key})).Some?
  {
    if t == Hello {
      hide ReadHello;
      HelloWithout(m, key);
    } else if t == Reply {
      hide ReadReply;
      ReplyWithout(m, key);
    } else {
      FewWithout(t, m, key);
    }
  }

  lemma FewNull(t: MessageType, m: Fields, key: string)
    requires t != Hello && key in Nullable(t)
    ensures ReadBody(t, Obj(m[key := Null])) == ReadBody(t, Obj(m - {key}))
  {
    var n, p := m[key := Null], m - {key};
    hide GetStr, GetU32, GetRole, GetBool, GetStrs, GetSessions, GetBoolOr, GetOptStr, GetOptI64, GetOptJson;
    Unread(n, key);
    Unread(p, key);
    forall other | other != key ensures SameUnder(n, p, other) {
      SameReads(n, p, other);
    }
    match t
    case Reply =>
      assert SameUnder(n, p, "session") && SameUnder(n, p, "chunks") && SameUnder(n, p, "done");
      assert SameUnder(n, p, if key == "text" then "exit" else "text");
    case Error =>
      assert SameUnder(n, p, "code");
      assert SameUnder(n, p, if key == "cmd" then "message" else "cmd");
    case Prompt => assert SameUnder(n, p, "session") && SameUnder(n, p, "text");
    case Ping => case Pong => case Ack =>
  }

  lemma HelloNull(m: Fields, key: string)
    requires key == "token_id" || key == "client_id"
    ensures ReadHello(m[key := Null]) == ReadHello(m - {key})
  {
    var n, p := m[key := Null], m - {key};
    hide GetStr, GetU32, GetRole, GetBool, GetStrs, GetSessions, GetBoolOr, GetOptStr, GetOptI64, GetOptJson;
    hide ReadHello, SameUnder;
    Unread(n, key);
    Unread(p, key);
    forall other | other != key ensures SameUnder(n, p, other) {
      SameReads(n, p, other);
    }
    OptionsUnder(n, p, if key == "token_id" then "client_id" else "token_id");
    HelloAlike(n, p);
  }

  /** With `null` under an optional key a body reads as if the key were left out. */
  lemma NullIsAbsent(t: MessageType, m: Fields, key: string)
    requires key in Nullable(t)
    ensures ReadBody(t, Obj(m[key := Null])) == ReadBody(t, Obj(m - {key}))
  {
    if t == Hello {
      hide ReadHello;
      HelloNull(m, key);
    } else {
      FewNull(t, m, key);
    }
  }

  lemma PairFields(items: seq<Json>)
    requires |items| <= 2
    ensures var m := Positional(["name", "harness"], items);
            && ("name" in m <==> |items| > 0) && ("harness" in m <==> |items| > 1)
            && (|items| > 0 ==> m["name"] == items[0]) && (|items| > 1 ==> m["harness"] == items[1])
    ensures |items| == 2 ==> items == [items[0], items[1]]
  {
    var names := ["name", "harness"];
    assert names[0] != names[1];
    PositionalHolds(names, items);
    assert |items| > 0 ==> names[0] in Positional(names, items);
    assert |items| > 1 ==> names[1] in Positional(names, items);
    assert names[0] in Positional(names, items) <==> 0 < |items|;
    assert names[1] in Positional(names, items) <==> 1 < |items|;
  }

  /** A session of a `hello` is its name and its harness, under those keys or as a
      pair in that order. */
  lemma SessionSpellings(j: Json, s: HelloSession)
    ensures ReadSession(j) == Some(s)
            <==> || (j.Obj? && Given(j.fields, "name", Str(s.name)) && Given(j.fields, "harness", Str(s.harness)))
                 || j == Arr([Str(s.name), Str(s.harness)])
  {
    if j.Arr? && |j.items| <= 2 {
      PairFields(j.items);
    }
  }

  lemma ByPosition(t: MessageType, names: seq<string>, items: seq<Json>, m: Fields)
    requires t != QueryOk && t != Unknown && FieldNames(t) == names && |items| <= |names|
    requires forall key :: key in m <==> exists i :: 0 <= i < |items| && names[i] == key
    requires forall i :: 0 <= i < |items| ==> names[i] in m && m[names[i]] == items[i]
    ensures ReadBody(t, Arr(items)) == ReadBody(t, Obj(m))
  {
    hide ReadBody, FieldNames;
    assert m.Keys == set i | 0 <= i < |items| :: names[i];
    ArrayBodiesReadByPosition(t, items, m);
  }

  lemma OneByPosition(t: MessageType, x: Json, first: string)
    requires t != QueryOk && t != Unknown && FieldNames(t) == [first]
    ensures ReadBody(t, Arr([x])) == ReadBody(t, Obj(map[first := x]))
  {
    hide ReadBody, FieldNames;
    var names := [first];
    assert names[0] == first;
    ByPosition(t, names, [x], map[first := x]);
  }

  lemma TwoByPosition(t: MessageType, x: Json, y: Json, first: string, second: string)
    requires t != QueryOk && t != Unknown && FieldNames(t) == [first, second] && first != second
    ensures ReadBody(t, Arr([x, y])) == ReadBody(t, Obj(map[first := x, second := y]))
  {
    hide ReadBody, FieldNames;
    var m := map[first := x, second := y];
    var names := [first, second];
    assert names[0] == first && names[1] == second;
    ByPosition(t, names, [x, y], m);
  }

  lemma ThreeByPosition(t: MessageType, x: Json, y: Json, z: Json, first: string, second: string, third: string)
    requires t != QueryOk && t != Unknown && FieldNames(t) == [first, second, third]
    requires first != second && second != third && first != third
    ensures ReadBody(t, Arr([x, y, z])) == ReadBody(t, Obj(map[first := x, second := y, third := z]))
  {
    hide ReadBody, FieldNames;
    var m := map[first := x, second := y, third := z];
    var names := [first, second, third];
    assert names[0] == first && names[1] == second && names[2] == third;
    ByPosition(t, names, [x, y, z], m);
  }

  /** The order in which an array body gives the fields of each type. */
  lemma DeclaredOrder(x: Json, y: Json, z: Json)
    ensures ReadBody(Auth, Arr([x])) == ReadBody(Auth, Obj(map["credential" := x]))
    ensures ReadBody(Interrupt, Arr([x])) == ReadBody(Interrupt, Obj(map["session" := x]))
    ensures ReadBody(Presence, Arr([x])) == ReadBody(Presence, Obj(map["sessions" := x]))
    ensures ReadBody(Ping, Arr([x])) == ReadBody(Ping, Obj(map["hostname" := x]))
    ensures ReadBody(Pong, Arr([x])) == ReadBody(Pong, Obj(map["hostname" := x]))
    ensures ReadBody(Ack, Arr([x])) == ReadBody(Ack, Obj(map["of" := x]))
    ensures ReadBody(Error, Arr([x, y, z])) == ReadBody(Error, Obj(map["code" := x, "cmd" := y, "message" := z]))
    ensures ReadBody(Prompt, Arr([x, y, z])) == ReadBody(Prompt, Obj(map["session" := x, "text" := y, "meta" := z]))
  {
    hide ReadBody;
    OneByPosition(Auth, x, "credential");
    OneByPosition(Interrupt, x, "session");
    OneByPosition(Presence, x, "sessions");
    OneByPosition(Ping, x, "hostname");
    OneByPosition(Pong, x, "hostname");
    OneByPosition(Ack, x, "of");
    ThreeByPosition(Error, x, y, z, "code", "cmd", "message");
    ThreeByPosition(Prompt, x, y, z, "session", "text", "meta");
  }

  /** The same of the types with two fields. */
  lemma DeclaredPairs(x: Json, y: Json)
    ensures ReadBody(Join, Arr([x, y])) == ReadBody(Join, Obj(map["secret" := x, "hostname" := y]))
    ensures ReadBody(JoinOk, Arr([x, y])) == ReadBody(JoinOk, Obj(map["client_id" := x, "credential" := y]))
    ensures ReadBody(Query, Arr([x, y])) == ReadBody(Query, Obj(map["cmd" := x, "args" := y]))
    ensures ReadBody(Answer, Arr([x, y])) == ReadBody(Answer, Obj(map["session" := x, "choice" := y]))
    ensures ReadBody(SessionBlocked, Arr([x, y])) == ReadBody(SessionBlocked, Obj(map["session" := x, "blocked" := y]))
  {
    hide ReadBody;
    TwoByPosition(Join, x, y, "secret", "hostname");
    TwoByPosition(JoinOk, x, y, "client_id", "credential");
    TwoByPosition(Query, x, y, "cmd", "args");
    TwoByPosition(Answer, x, y, "session", "choice");
    TwoByPosition(SessionBlocked, x, y, "session", "blocked");
  }

  /** And of a reply; for a hello, the order itself. */
  lemma DeclaredLong(session: Json, text: Json, chunks: Json, done: Json, exit: Json)
    ensures ReadBody(Reply, Arr([session, text, chunks, done, exit]))
            == ReadBody(Reply, Obj(map["session" := session, "text" := text, "chunks" := chunks, "done" := done,
                                       "exit" := exit]))
    ensures FieldNames(Hello)
            == ["protocol", "protocol_min", "protocol_max", "role", "hostname", "token_id", "client_id", "harnesses",
                "harnesses_known", "harnesses_confirmed", "features", "sessions"]
  {
    hide ReadBody;
    var names := ["session", "text", "chunks", "done", "exit"];
    var m := map["session" := session, "text" := text, "chunks" := chunks, "done" := done, "exit" := exit];
    FieldNamesDistinct(Reply);
    assert names[0] == "session" && names[1] == "text" && names[2] == "chunks" && names[3] == "done";
    assert names[4] == "exit";
    ByPosition(Reply, names, [session, text, chunks, done, exit], m);
  }

  /** Only an object with all six keys is an envelope. */
  lemma EnvelopeNeedsAll(j: Json)
    ensures Decode(j).Ok? ==> j.Obj? && {"v", "type", "id", "ts", "from", "body"} <= j.fields.Keys
    ensures Decode(j).Ok? ==>
              var e := Decode(j).value;
              && j.fields["type"].Str? && e.msgType == FromWire(j.fields["type"].text)
              && j.fields["id"] == Str(e.id) && j.fields["ts"] == Str(e.ts) && j.fields["from"] == Str(e.from)
              && ReadBody(e.msgType, j.fields["body"]) == Some(e.body)
  {
    hide ReadBody, FromWire;
  }
}
