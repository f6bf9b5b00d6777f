/** The streamable-HTTP binding: the table of live sessions keyed by session
    id, and the POST, GET and DELETE routes of `/mcp` that create, use and
    close sessions.

    Each route is first stated as a function from the table's state to its
    next state and the HTTP reply (`PostRoute`, `SessionRoute`, `OnClose`);
    the class `SessionTable` then performs the same steps on its fields, and
    its methods are proved to follow those functions.

    A transport is opaque. What its `handleRequest` does is an `Exchange`
    given with the request: the session id it assigns (only consulted for a
    transport created by an initialize request), whether the transport
    closes while handling it (its `onclose` callback then runs), and whether
    it completes or throws, and if it throws, whether response headers were
    already sent. The transports asked to handle a request are recorded,
    in order, in a log. */
module Streamable {
  import opened Wrappers
  import opened JsonValues

  const SESSION_HEADER := "mcp-session-id"
  const NOT_FOUND_TEXT := "Invalid or missing session ID"
  const BAD_REQUEST_TEXT := "Bad Request: No valid session ID provided"
  const INTERNAL_ERROR_TEXT := "Internal server error"
  const UNKNOWN_IP := "unknown"

  /** An incoming request: its headers (names in lower case, as Node gives
      them), Express's `req.ip`, the socket's remote address and the parsed
      JSON body. */
  datatype Request = Request(headers: map<string, string>, ip: Option<string>,
                             remoteAddress: Option<string>, body: Json)

  /** `req.get(name)` / `req.headers[name]`. */
  function Header(req: Request, name: string): (v: Option<string>)
    ensures v.Some? <==> name in req.headers
  {
    if name in req.headers then Some(req.headers[name]) else None
  }

  function SessionIdOf(req: Request): Option<string>
  {
    Header(req, SESSION_HEADER)
  }

  // ---------------------------------------------------------------------
  // Client IP

  /** `s.split(",")[0]`: the text before the first comma, or all of `s`. */
  function FirstPiece(s: string): (p: string)
    ensures p <= s
    ensures ',' !in p
    ensures |p| == |s| || s[|p|] == ','
  {
    if s == [] || s[0] == ',' then [] else [s[0]] + FirstPiece(s[1..])
  }

  /** `a || b` for a string that may be `undefined`. */
  function OrElse(a: Option<string>, b: string): (r: string)
    ensures TruthyText(a) ==> r == a.value
    ensures !TruthyText(a) ==> r == b
  {
    if a.Some? && a.value != "" then a.value else b
  }

  /** The first piece of `x-forwarded-for`, if that header is present. */
  function ForwardedFor(req: Request): (f: Option<string>)
    ensures f.Some? <==> "x-forwarded-for" in req.headers
    ensures f.Some? ==> f.value == FirstPiece(req.headers["x-forwarded-for"])
  {
    match Header(req, "x-forwarded-for")
    case None => None
    case Some(v) => Some(FirstPiece(v))
  }

  /** `getClientIp`: the first non-empty candidate among the first piece of
      `x-forwarded-for`, `x-real-ip`, `req.ip` and the socket address, or
      `"unknown"`. */
  function GetClientIp(req: Request): (ip: string)
    ensures ip != ""
    ensures TruthyText(ForwardedFor(req)) ==> ip == ForwardedFor(req).value && ',' !in ip
    ensures !TruthyText(ForwardedFor(req)) && TruthyText(Header(req, "x-real-ip")) ==>
      ip == req.headers["x-real-ip"]
    ensures !TruthyText(ForwardedFor(req)) && !TruthyText(Header(req, "x-real-ip")) && TruthyText(req.ip) ==>
      ip == req.ip.value
    ensures !TruthyText(ForwardedFor(req)) && !TruthyText(Header(req, "x-real-ip")) && !TruthyText(req.ip) ==>
      ip == (if TruthyText(req.remoteAddress) then req.remoteAddress.value else UNKNOWN_IP)
  {
    OrElse(ForwardedFor(req), OrElse(Header(req, "x-real-ip"), OrElse(req.ip, OrElse(req.remoteAddress, UNKNOWN_IP))))
  }

  /** An independent statement of the precedence rule: the first candidate
      that is present and non-empty, else the fallback. */
  function FirstNonEmpty(candidates: seq<Option<string>>, fallback: string): (r: string)
    ensures r == fallback || exists i :: 0 <= i < |candidates| && candidates[i] == Some(r) && r != ""
  {
    if candidates == [] then fallback
    else if TruthyText(candidates[0]) then candidates[0].value
    else FirstNonEmpty(candidates[1..], fallback)
  }

  /** With no non-empty candidate the fallback is chosen. */
  lemma {:induction false} FirstNonEmptyFallback(candidates: seq<Option<string>>, fallback: string)
    requires forall i :: 0 <= i < |candidates| ==> !TruthyText(candidates[i])
    ensures FirstNonEmpty(candidates, fallback) == fallback
  {
    if candidates != [] {
      FirstNonEmptyFallback(candidates[1..], fallback);
    }
  }

  /** The chosen candidate is preceded only by absent or empty ones. */
  lemma {:induction false} FirstNonEmptyIsFirst(candidates: seq<Option<string>>, fallback: string, i: nat)
    requires i < |candidates| && TruthyText(candidates[i])
    requires forall j :: 0 <= j < i ==> !TruthyText(candidates[j])
    ensures FirstNonEmpty(candidates, fallback) == candidates[i].value
  {
    if i > 0 {
      FirstNonEmptyIsFirst(candidates[1..], fallback, i - 1);
    }
  }

  /** `getClientIp` is the precedence rule over its four candidates. */
  lemma GetClientIpIsFirstNonEmpty(req: Request)
    ensures GetClientIp(req) ==
      FirstNonEmpty([ForwardedFor(req), Header(req, "x-real-ip"), req.ip, req.remoteAddress], UNKNOWN_IP)
  {
    var c := [ForwardedFor(req), Header(req, "x-real-ip"), req.ip, req.remoteAddress];
    var last := OrElse(req.remoteAddress, UNKNOWN_IP);
    assert FirstNonEmpty(c[3..], UNKNOWN_IP) == last by {
      assert c[3..][1..] == [];
    }
    assert FirstNonEmpty(c[2..], UNKNOWN_IP) == OrElse(req.ip, last) by {
      assert c[2..][1..] == c[3..];
    }
    assert FirstNonEmpty(c[1..], UNKNOWN_IP) == OrElse(Header(req, "x-real-ip"), OrElse(req.ip, last)) by {
      assert c[1..][1..] == c[2..];
    }
  }

  // ---------------------------------------------------------------------
  // Body enrichment

  /** The header map as a JSON object. */
  function HeadersJson(headers: map<string, string>): (j: Json)
    ensures j.JObj? && j.fields.Keys == headers.Keys
    ensures forall k :: k in headers ==> j.fields[k] == JStr(headers[k])
  {
    JObj(map k | k in headers :: JStr(headers[k]))
  }

  /** `{ ip: getClientIp(req), headers: req.headers }`. */
  function MetaOf(req: Request): (m: Json)
    ensures m.JObj? && m.fields.Keys == {"ip", "headers"}
    ensures m.fields["ip"] == JStr(GetClientIp(req)) && m.fields["ip"].s != ""
    ensures m.fields["headers"].JObj? && m.fields["headers"].fields.Keys == req.headers.Keys
    ensures forall k :: k in req.headers ==> m.fields["headers"].fields[k] == JStr(req.headers[k])
  {
    JObj(map["ip" := JStr(GetClientIp(req)), "headers" := HeadersJson(req.headers)])
  }

  /** `body?.params || {}`. */
  function ParamsOf(body: Json): (p: Json)
    ensures Property(body, "params").Some? && Truthy(Property(body, "params").value) ==>
      p == body.fields["params"]
    ensures Property(body, "params").None? || !Truthy(Property(body, "params").value) ==>
      p == JObj(map[])
  {
    match Property(body, "params")
    case Some(p) => if Truthy(p) then p else JObj(map[])
    case None => JObj(map[])
  }

  /** `params._meta = meta`. On an object this sets the field; a property set
      on an array is not part of its JSON value; on a (truthy) string, number
      or boolean strict-mode JavaScript throws a TypeError (None). */
  function WithMeta(params: Json, meta: Json): (r: Option<Json>)
    ensures r.None? <==> !params.JObj? && !params.JArr?
    ensures params.JObj? ==> r == Some(JObj(params.fields["_meta" := meta]))
  {
    match params
    case JObj(fields) => Some(JObj(fields["_meta" := meta]))
    case JArr(_) => Some(params)
    case _ => None
  }

  /** `{ ...body, params }` with `params` carrying `_meta`; None when setting
      `_meta` throws. */
  function Enrich(body: Json, meta: Json): (r: Option<Json>)
    ensures r.None? <==>
      body.JObj? && "params" in body.fields && Truthy(body.fields["params"]) &&
      !body.fields["params"].JObj? && !body.fields["params"].JArr?
    ensures r.Some? ==> r.value.JObj? && r.value.fields.Keys == Spread(body).Keys + {"params"}
    ensures r.Some? ==> forall k :: k in Spread(body) && k != "params" ==> r.value.fields[k] == Spread(body)[k]
  {
    match WithMeta(ParamsOf(body), meta)
    case None => None
    case Some(params) => Some(JObj(Spread(body)["params" := params]))
  }

  /** For an object body the forwarded body is the original one whose
      `params` gained `_meta`; a missing or falsy `params` becomes
      `{ _meta }`, and no other field changes. */
  lemma EnrichObjectBody(fields: map<string, Json>, meta: Json)
    ensures "params" !in fields || !Truthy(fields["params"]) ==>
      Enrich(JObj(fields), meta) == Some(JObj(fields["params" := JObj(map["_meta" := meta])]))
    ensures "params" in fields && fields["params"].JObj? ==>
      Enrich(JObj(fields), meta) == Some(JObj(fields["params" := JObj(fields["params"].fields["_meta" := meta])]))
  {
  }

  /** The body an initialize request is accepted with carries object params,
      so enriching it never throws and only adds `params._meta`. */
  lemma EnrichInitializeBody(body: Json, meta: Json)
    requires IsInitializeRequest(body)
    ensures Enrich(body, meta) ==
      Some(JObj(body.fields["params" := JObj(body.fields["params"].fields["_meta" := meta])]))
  {
    EnrichObjectBody(body.fields, meta);
  }

  /** `isInitializeRequest`: an object whose `method` is `"initialize"` and
      whose `params` carry a string `protocolVersion`, an object
      `capabilities` and a `clientInfo` object with string `name` and
      `version`. */
  predicate IsInitializeRequest(body: Json)
    ensures IsInitializeRequest(body) ==>
      body.JObj? && "params" in body.fields && body.fields["params"].JObj? &&
      {"protocolVersion", "capabilities", "clientInfo"} <= body.fields["params"].fields.Keys
  {
    && body.JObj?
    && Property(body, "method") == Some(JStr("initialize"))
    && Property(body, "params").Some?
    && var params := body.fields["params"];
    && params.JObj?
    && Property(params, "protocolVersion").Some? && params.fields["protocolVersion"].JStr?
    && Property(params, "capabilities").Some? && params.fields["capabilities"].JObj?
    && Property(params, "clientInfo").Some?
    && var info := params.fields["clientInfo"];
    && info.JObj?
    && Property(info, "name").Some? && info.fields["name"].JStr?
    && Property(info, "version").Some? && info.fields["version"].JStr?
  }

  // ---------------------------------------------------------------------
  // The session table as values

  datatype HttpMethod = Post | Get | Delete

  /** The verbs of the routes that share the GET/DELETE logic. */
  type SessionVerb = m: HttpMethod | m != Post witness Get

  /** A transport: the identity it was created with and the session id it
      has been assigned, if any. */
  datatype Transport = Transport(serial: nat, sessionId: Option<string>)

  /** A protocol server created together with the transport of that serial. */
  datatype ServerHandle = ServerHandle(serial: nat)

  /** `TransportEntry`. */
  datatype Entry = Entry(transport: Transport, server: ServerHandle)

  /** A call of `handleRequest` on the transport of the given serial, with the
      parsed body it was handed (GET and DELETE hand none). */
  datatype Forwarded = Forwarded(transport: nat, verb: HttpMethod, body: Option<Json>)

  datatype Completion = Completed | Threw(headersSent: bool)

  /** What a transport's `handleRequest` does with a request. */
  datatype Exchange = Exchange(assignedId: Option<string>, closes: bool, completion: Completion)

  /** The route's own reply, or the response the transport wrote. */
  datatype Reply = Status(code: int, text: string) | TransportReply

  /** The session table, the log of forwarded requests, and how many
      transport/server pairs have been created. */
  datatype TableState = TableState(transports: map<string, Entry>, forwarded: seq<Forwarded>, created: nat)

  datatype StepResult = StepResult(state: TableState, reply: Reply)

  /** Every entry holds the transport whose session id is its key, created
      with its server and earlier than any transport yet to come; no two
      entries share a transport. */
  predicate TableInvariant(s: TableState)
  {
    && (forall sid :: sid in s.transports ==>
          && s.transports[sid].transport.sessionId == Some(sid)
          && s.transports[sid].server.serial == s.transports[sid].transport.serial
          && s.transports[sid].transport.serial < s.created)
    && (forall a, b :: a in s.transports && b in s.transports && a != b ==>
          s.transports[a].transport.serial != s.transports[b].transport.serial)
  }

  const EmptyTable := TableState(map[], [], 0)

  /** The properties every plain JavaScript object inherits from
      `Object.prototype`. `transports` is such an object, so for one of these
      names that is not a key of its own, `transports[name]` is a (truthy)
      function or object that has no `transport` field. */
  const OBJECT_PROTOTYPE_KEYS: set<string> := {
    "constructor", "__proto__", "__defineGetter__", "__defineSetter__",
    "__lookupGetter__", "__lookupSetter__", "hasOwnProperty", "isPrototypeOf",
    "propertyIsEnumerable", "toLocaleString", "toString", "valueOf"
  }

  /** `transport.onclose`: drop the entry under the transport's own session
      id, if it has one and it is registered. */
  function OnClose(s: TableState, t: Transport): (r: TableState)
    ensures r.forwarded == s.forwarded && r.created == s.created
    ensures TruthyText(t.sessionId) ==> r.transports == s.transports - {t.sessionId.value}
    ensures !TruthyText(t.sessionId) ==> r.transports == s.transports
  {
    var sid := t.sessionId;
    if sid.Some? && sid.value != "" && sid.value in s.transports then
      s.(transports := s.transports - {sid.value})
    else s
  }

  /** A second close of the same transport changes nothing more. */
  lemma OnCloseIdempotent(s: TableState, t: Transport)
    ensures OnClose(OnClose(s, t), t) == OnClose(s, t)
  {
  }

  /** Closing keeps the table invariant. */
  lemma OnClosePreservesInvariant(s: TableState, t: Transport)
    requires TableInvariant(s)
    ensures TableInvariant(OnClose(s, t))
  {
  }

  /** How a route ends after `handleRequest`: a throw before any header was
      sent is answered 500, everything else is the transport's response. */
  function Settle(c: Completion): (r: Reply)
    ensures r == Status(500, INTERNAL_ERROR_TEXT) <==> c == Threw(false)
    ensures r != Status(500, INTERNAL_ERROR_TEXT) ==> r == TransportReply
  {
    match c
    case Completed => TransportReply
    case Threw(headersSent) => if headersSent then TransportReply else Status(500, INTERNAL_ERROR_TEXT)
  }

  /** Hand a request to a transport: log it, run `onclose` if it closes. */
  function Forward(s: TableState, t: Transport, m: HttpMethod, body: Option<Json>, closes: bool): (r: TableState)
    ensures r.forwarded == s.forwarded + [Forwarded(t.serial, m, body)] && r.created == s.created
    ensures r.transports == (if closes then OnClose(s, t).transports else s.transports)
  {
    var logged := s.(forwarded := s.forwarded + [Forwarded(t.serial, m, body)]);
    if closes then OnClose(logged, t) else logged
  }

  /** POST /mcp. A session id that only names an inherited property of
      `transports` passes the `!entry` test; enriching the body may then
      throw, and `entry.transport.handleRequest` throws in any case, so the
      answer is 500 before anything is forwarded. */
  function PostRoute(s: TableState, req: Request, ex: Exchange): (r: StepResult)
    ensures r.state.created == s.created || r.state.created == s.created + 1
    ensures s.forwarded <= r.state.forwarded && |r.state.forwarded| <= |s.forwarded| + 1
    ensures |r.state.forwarded| > |s.forwarded| ==> r.state.forwarded[|s.forwarded|].verb == Post
    ensures r.reply.Status? ==> r.reply.code in {400, 404, 500}
    ensures r.reply.Status? && r.reply.code != 500 ==> r.state == s
  {
    var sid := SessionIdOf(req);
    if TruthyText(sid) then
      if sid.value !in s.transports then
        if sid.value in OBJECT_PROTOTYPE_KEYS then StepResult(s, Status(500, INTERNAL_ERROR_TEXT))
        else StepResult(s, Status(404, NOT_FOUND_TEXT))
      else
        var entry := s.transports[sid.value];
        match Enrich(req.body, MetaOf(req))
        case None => StepResult(s, Status(500, INTERNAL_ERROR_TEXT))
        case Some(body) =>
          StepResult(Forward(s, entry.transport, Post, Some(body), ex.closes), Settle(ex.completion))
    else if !IsInitializeRequest(req.body) then
      StepResult(s, Status(400, BAD_REQUEST_TEXT))
    else
      var serial := s.created;
      var server := ServerHandle(serial);
      var created := s.(created := serial + 1);
      match Enrich(req.body, MetaOf(req))
      case None => StepResult(created, Status(500, INTERNAL_ERROR_TEXT))
      case Some(body) =>
        var transport := Transport(serial, ex.assignedId);
        var handled := Forward(created, transport, Post, Some(body), ex.closes);
        match ex.completion
        case Threw(_) => StepResult(handled, Settle(ex.completion))
        case Completed =>
          if TruthyText(transport.sessionId) then
            StepResult(handled.(transports := handled.transports[transport.sessionId.value := Entry(transport, server)]),
                       TransportReply)
          else StepResult(handled, TransportReply)
  }

  /** GET /mcp and DELETE /mcp, which share their logic. An inherited
      property name passes the `!transports[sessionId]` test and then
      `.transport.handleRequest` throws: 500. */
  function SessionRoute(s: TableState, req: Request, m: SessionVerb, ex: Exchange): (r: StepResult)
    ensures r.state.created == s.created
    ensures r.state.transports.Keys <= s.transports.Keys
    ensures forall k :: k in r.state.transports ==> r.state.transports[k] == s.transports[k]
    ensures s.forwarded <= r.state.forwarded && |r.state.forwarded| <= |s.forwarded| + 1
    ensures |r.state.forwarded| > |s.forwarded| ==>
      r.state.forwarded[|s.forwarded|].verb == m && r.state.forwarded[|s.forwarded|].body == None
    ensures r.reply.Status? ==> r.reply.code in {404, 500}
    ensures r.reply == Status(404, NOT_FOUND_TEXT) ==> r.state == s
  {
    var sid := SessionIdOf(req);
    if !TruthyText(sid) || (sid.value !in s.transports && sid.value !in OBJECT_PROTOTYPE_KEYS) then
      StepResult(s, Status(404, NOT_FOUND_TEXT))
    else if sid.value !in s.transports then StepResult(s, Status(500, INTERNAL_ERROR_TEXT))
    else StepResult(Forward(s, s.transports[sid.value].transport, m, None, ex.closes), Settle(ex.completion))
  }

  // ---------------------------------------------------------------------
  // Properties of the routes

  /** A POST naming an unregistered session is answered 404 whatever its
      body, or 500 if the id is the name of an inherited property; nothing
      is forwarded and the table is unchanged. */
  lemma PostUnknownSessionNotFound(s: TableState, req: Request, ex: Exchange)
    requires TruthyText(SessionIdOf(req)) && SessionIdOf(req).value !in s.transports
    ensures PostRoute(s, req, ex) ==
      StepResult(s, if SessionIdOf(req).value in OBJECT_PROTOTYPE_KEYS then Status(500, INTERNAL_ERROR_TEXT)
                    else Status(404, NOT_FOUND_TEXT))
  {
  }

  /** Only an initialize POST that completes adds a session, and only under
      the id its transport was assigned. */
  lemma PostOnlyInitializeAddsSessions(s: TableState, req: Request, ex: Exchange, k: string)
    requires k in PostRoute(s, req, ex).state.transports && k !in s.transports
    ensures !TruthyText(SessionIdOf(req)) && IsInitializeRequest(req.body)
    ensures ex.completion == Completed && ex.assignedId == Some(k)
    ensures PostRoute(s, req, ex).reply == TransportReply
  {
  }

  /** `constructor`, `toString` and the other inherited names are not
      unknown sessions to the POST, GET and DELETE routes: each of them
      answers 500 and changes nothing, where an unknown id gets 404. */
  lemma PrototypeSessionIdInternalError(s: TableState, req: Request, m: SessionVerb, ex: Exchange)
    requires SessionIdOf(req) == Some("constructor") && "constructor" !in s.transports
    ensures PostRoute(s, req, ex) == StepResult(s, Status(500, INTERNAL_ERROR_TEXT))
    ensures SessionRoute(s, req, m, ex) == StepResult(s, Status(500, INTERNAL_ERROR_TEXT))
  {
  }

  /** A POST with no session id that is an initialize request, and is not
      registered because its transport threw or was assigned no id, still
      creates a transport and a server and forwards to it, but leaves the
      table as it was, except that a closing transport drops the entry
      under the id it was assigned. */
  lemma InitializeWithoutIdRegistersNothing(s: TableState, req: Request, ex: Exchange)
    requires !TruthyText(SessionIdOf(req)) && IsInitializeRequest(req.body)
    requires ex.completion.Threw? || !TruthyText(ex.assignedId)
    ensures var r := PostRoute(s, req, ex);
      && r.state.transports ==
           (if ex.closes && TruthyText(ex.assignedId) then s.transports - {ex.assignedId.value} else s.transports)
      && r.state.created == s.created + 1
      && r.state.forwarded == s.forwarded + [Forwarded(s.created, Post, Enrich(req.body, MetaOf(req)))]
      && r.reply == Settle(ex.completion)
  {
    EnrichInitializeBody(req.body, MetaOf(req));
  }

  /** A POST without a session id whose body is not an initialize request is
      answered 400, and no transport or entry is created. */
  lemma PostWithoutSessionNeedsInitialize(s: TableState, req: Request, ex: Exchange)
    requires !TruthyText(SessionIdOf(req)) && !IsInitializeRequest(req.body)
    ensures PostRoute(s, req, ex) == StepResult(s, Status(400, BAD_REQUEST_TEXT))
  {
  }

  /** A POST on a registered session forwards the enriched body to exactly
      that session's transport; the table changes only if the transport
      closes, and then loses only that session. */
  lemma PostKnownSessionForwards(s: TableState, req: Request, ex: Exchange)
    requires TableInvariant(s)
    requires TruthyText(SessionIdOf(req)) && SessionIdOf(req).value in s.transports
    requires Enrich(req.body, MetaOf(req)).Some?
    ensures var sid := SessionIdOf(req).value;
      var r := PostRoute(s, req, ex);
      && r.state.forwarded ==
           s.forwarded + [Forwarded(s.transports[sid].transport.serial, Post, Enrich(req.body, MetaOf(req)))]
      && r.state.transports == (if ex.closes then s.transports - {sid} else s.transports)
      && r.reply == Settle(ex.completion)
  {
  }

  /** An initialize POST that completes and is assigned a non-empty id
      registers the new transport and server under that id, after the
      request was forwarded to it; every other entry is kept. This holds
      also when the transport closes during `handleRequest`: its `onclose`
      removes at most an entry under the same id, which the registration
      then overwrites. If the id was not in use, the table grows by exactly
      that entry. */
  lemma InitializeRegistersSession(s: TableState, req: Request, id: string, closes: bool)
    requires !TruthyText(SessionIdOf(req)) && IsInitializeRequest(req.body)
    requires id != ""
    ensures var r := PostRoute(s, req, Exchange(Some(id), closes, Completed));
      && r.reply == TransportReply
      && r.state.created == s.created + 1
      && r.state.transports == s.transports[id := Entry(Transport(s.created, Some(id)), ServerHandle(s.created))]
      && r.state.forwarded == s.forwarded + [Forwarded(s.created, Post, Enrich(req.body, MetaOf(req)))]
      && (id !in s.transports ==> |r.state.transports| == |s.transports| + 1)
  {
    var handled := InitializeCompletes(s, req, id, closes);
    RemoveThenSet(s.transports, id, Entry(Transport(s.created, Some(id)), ServerHandle(s.created)));
  }

  /** Setting a key overrides an earlier removal of that key. */
  lemma RemoveThenSet(m: map<string, Entry>, k: string, v: Entry)
    ensures (m - {k})[k := v] == m[k := v]
  {
  }

  /** The initialize branch of `PostRoute` for a completed exchange with a
      non-empty id: the state after forwarding, with the new entry set. */
  lemma InitializeCompletes(s: TableState, req: Request, id: string, closes: bool) returns (handled: TableState)
    requires !TruthyText(SessionIdOf(req)) && IsInitializeRequest(req.body)
    requires id != ""
    ensures handled.created == s.created + 1
    ensures handled.forwarded == s.forwarded + [Forwarded(s.created, Post, Enrich(req.body, MetaOf(req)))]
    ensures handled.transports == if closes then s.transports - {id} else s.transports
    ensures PostRoute(s, req, Exchange(Some(id), closes, Completed)) ==
      StepResult(handled.(transports := handled.transports[id := Entry(Transport(s.created, Some(id)), ServerHandle(s.created))]),
                 TransportReply)
  {
    EnrichInitializeBody(req.body, MetaOf(req));
    handled := Forward(s.(created := s.created + 1), Transport(s.created, Some(id)), Post,
                       Enrich(req.body, MetaOf(req)), closes);
  }

  /** A transport that closes while it handles its initialize request finds
      no entry to remove yet, and is registered once `handleRequest`
      returns: the table then holds a session whose transport is closed. */
  lemma CloseDuringInitializeLeavesEntry(s: TableState, req: Request, id: string)
    requires !TruthyText(SessionIdOf(req)) && IsInitializeRequest(req.body)
    requires id != "" && id !in s.transports
    ensures id in PostRoute(s, req, Exchange(Some(id), true, Completed)).state.transports
  {
    InitializeRegistersSession(s, req, id, true);
  }

  /** GET or DELETE without a registered session id is answered 404, or
      500 for the name of an inherited property, and forwards nothing. */
  lemma SessionRouteUnknownNotFound(s: TableState, req: Request, m: SessionVerb, ex: Exchange)
    requires !TruthyText(SessionIdOf(req)) || SessionIdOf(req).value !in s.transports
    ensures SessionRoute(s, req, m, ex) ==
      StepResult(s, if TruthyText(SessionIdOf(req)) && SessionIdOf(req).value in OBJECT_PROTOTYPE_KEYS
                    then Status(500, INTERNAL_ERROR_TEXT) else Status(404, NOT_FOUND_TEXT))
  {
  }

  /** GET or DELETE on a registered session forwards to that session's
      transport only; the route itself leaves the table alone, and a close
      during the exchange removes exactly that session. */
  lemma SessionRouteForwards(s: TableState, req: Request, m: SessionVerb, ex: Exchange)
    requires TableInvariant(s)
    requires TruthyText(SessionIdOf(req)) && SessionIdOf(req).value in s.transports
    ensures var sid := SessionIdOf(req).value;
      var r := SessionRoute(s, req, m, ex);
      && r.state.forwarded == s.forwarded + [Forwarded(s.transports[sid].transport.serial, m, None)]
      && r.state.transports == (if ex.closes then s.transports - {sid} else s.transports)
      && r.state.created == s.created
      && r.reply == Settle(ex.completion)
  {
  }

  /** 500 is answered only when nothing has been sent: either `handleRequest`
      threw before sending headers, or the route threw (setting `_meta`, or
      calling a transport an inherited property does not have) before
      anything was forwarded. */
  lemma InternalErrorOnlyBeforeHeaders(s: TableState, req: Request, ex: Exchange)
    ensures PostRoute(s, req, ex).reply == Status(500, INTERNAL_ERROR_TEXT) ==>
      ex.completion == Threw(false) || PostRoute(s, req, ex).state.forwarded == s.forwarded
    ensures (&& ex.completion != Threw(false) && Enrich(req.body, MetaOf(req)).Some?
             && !(TruthyText(SessionIdOf(req)) && SessionIdOf(req).value !in s.transports &&
                  SessionIdOf(req).value in OBJECT_PROTOTYPE_KEYS)) ==>
      PostRoute(s, req, ex).reply != Status(500, INTERNAL_ERROR_TEXT)
    ensures forall m: SessionVerb :: SessionRoute(s, req, m, ex).reply == Status(500, INTERNAL_ERROR_TEXT) ==>
      ex.completion == Threw(false) || SessionRoute(s, req, m, ex).state == s
  {
  }

  /** Registering a transport whose serial no entry uses keeps the table
      invariant. */
  lemma RegisterPreservesInvariant(s: TableState, id: string, serial: nat)
    requires TableInvariant(s) && serial < s.created
    requires forall k :: k in s.transports ==> s.transports[k].transport.serial != serial
    ensures TableInvariant(s.(transports := s.transports[id := Entry(Transport(serial, Some(id)), ServerHandle(serial))]))
  {
  }

  /** The steps of an initialize POST keep the table invariant. */
  lemma InitializePreservesInvariant(s: TableState, req: Request, ex: Exchange)
    requires TableInvariant(s)
    requires !TruthyText(SessionIdOf(req)) && IsInitializeRequest(req.body)
    ensures TableInvariant(PostRoute(s, req, ex).state)
  {
    EnrichInitializeBody(req.body, MetaOf(req));
    var body := Enrich(req.body, MetaOf(req)).value;
    var transport := Transport(s.created, ex.assignedId);
    var created := s.(created := s.created + 1);
    var handled := Forward(created, transport, Post, Some(body), ex.closes);
    assert handled.transports.Keys <= s.transports.Keys;
    assert forall k :: k in handled.transports ==> handled.transports[k] == s.transports[k];
    assert TableInvariant(handled);
    if ex.completion.Completed? && TruthyText(transport.sessionId) {
      RegisterPreservesInvariant(handled, transport.sessionId.value, s.created);
    }
  }

  /** Every POST keeps the table invariant. */
  lemma PostPreservesInvariant(s: TableState, req: Request, ex: Exchange)
    requires TableInvariant(s)
    ensures TableInvariant(PostRoute(s, req, ex).state)
  {
    var sid := SessionIdOf(req);
    if TruthyText(sid) {
      if sid.value in s.transports && Enrich(req.body, MetaOf(req)).Some? {
        var t := s.transports[sid.value].transport;
        OnClosePreservesInvariant(s.(forwarded := s.forwarded + [Forwarded(t.serial, Post, Enrich(req.body, MetaOf(req)))]), t);
      }
    } else if IsInitializeRequest(req.body) {
      InitializePreservesInvariant(s, req, ex);
    }
  }

  /** Every GET and DELETE keeps the table invariant. */
  lemma SessionRoutePreservesInvariant(s: TableState, req: Request, m: SessionVerb, ex: Exchange)
    requires TableInvariant(s)
    ensures TableInvariant(SessionRoute(s, req, m, ex).state)
  {
    var sid := SessionIdOf(req);
    if TruthyText(sid) && sid.value in s.transports && ex.closes {
      var t := s.transports[sid.value].transport;
      OnClosePreservesInvariant(s.(forwarded := s.forwarded + [Forwarded(t.serial, m, None)]), t);
    }
  }

  /** Once a DELETE on a session has closed its transport, every later POST,
      GET or DELETE with that session id is answered 404 (500 if the id is
      the name of an inherited property). */
  lemma DeletedSessionIsGone(s: TableState, req: Request, ex: Exchange, later: Request, m: SessionVerb, ex2: Exchange)
    requires TableInvariant(s)
    requires TruthyText(SessionIdOf(req)) && SessionIdOf(req).value in s.transports && ex.closes
    requires SessionIdOf(later) == SessionIdOf(req)
    ensures var after := SessionRoute(s, req, Delete, ex).state;
      var refused := if SessionIdOf(req).value in OBJECT_PROTOTYPE_KEYS then Status(500, INTERNAL_ERROR_TEXT)
                     else Status(404, NOT_FOUND_TEXT);
      && PostRoute(after, later, ex2).reply == refused
      && SessionRoute(after, later, m, ex2).reply == refused
  {
    SessionRouteForwards(s, req, Delete, ex);
  }

  /** Two initialize requests in a row, each assigned an id not in use,
      create two sessions with distinct transports and servers. */
  lemma TwoInitializesTwoSessions(s: TableState, req1: Request, req2: Request, id1: string, id2: string)
    requires TableInvariant(s)
    requires !TruthyText(SessionIdOf(req1)) && IsInitializeRequest(req1.body)
    requires !TruthyText(SessionIdOf(req2)) && IsInitializeRequest(req2.body)
    requires id1 != "" && id1 !in s.transports
    requires id2 != "" && id2 !in s.transports && id2 != id1
    ensures var s1 := PostRoute(s, req1, Exchange(Some(id1), false, Completed)).state;
      var s2 := PostRoute(s1, req2, Exchange(Some(id2), false, Completed)).state;
      && id1 in s2.transports && id2 in s2.transports
      && s2.transports[id1].transport != s2.transports[id2].transport
      && s2.transports[id1].server != s2.transports[id2].server
      && |s2.transports| == |s.transports| + 2
  {
    InitializeRegistersSession(s, req1, id1, false);
    var s1 := PostRoute(s, req1, Exchange(Some(id1), false, Completed)).state;
    InitializeRegistersSession(s1, req2, id2, false);
  }

  // ---------------------------------------------------------------------
  // The session table as an object

  /** The `transports` record of `runStreamableServer` with the three routes
      and the `onclose` callback as methods. */
  class SessionTable {
    var transports: map<string, Entry>
    var forwarded: seq<Forwarded>
    var created: nat

    function State(): TableState
      reads this
    {
      TableState(transports, forwarded, created)
    }

    ghost predicate Valid()
      reads this
    {
      TableInvariant(State())
    }

    constructor ()
      ensures Valid() && State() == EmptyTable
    {
      transports := map[];
      forwarded := [];
      created := 0;
    }

    /** The `onclose` callback of transport `t`, also run when the transport
        detects that the connection is gone. */
    method Close(t: Transport)
      requires Valid()
      modifies this
      ensures Valid() && State() == OnClose(old(State()), t)
    {
      OnClosePreservesInvariant(State(), t);
      var sid := t.sessionId;
      if sid.Some? && sid.value != "" && sid.value in transports {
        transports := transports - {sid.value};
      }
    }

    /** `transport.handleRequest(...)` as the routes call it. */
    method HandleRequest(t: Transport, m: HttpMethod, body: Option<Json>, closes: bool)
      requires Valid()
      modifies this
      ensures Valid() && State() == Forward(old(State()), t, m, body, closes)
    {
      forwarded := forwarded + [Forwarded(t.serial, m, body)];
      if closes {
        Close(t);
      }
    }

    /** POST /mcp. */
    method Post(req: Request, ex: Exchange) returns (reply: Reply)
      requires Valid()
      modifies this
      ensures Valid() && StepResult(State(), reply) == PostRoute(old(State()), req, ex)
    {
      var sessionId := SessionIdOf(req);
      if sessionId.Some? && sessionId.value != "" {
        reply := PostOnSession(req, ex);
      } else if !IsInitializeRequest(req.body) {
        reply := Status(400, BAD_REQUEST_TEXT);
      } else {
        reply := Initialize(req, ex);
      }
    }

    /** The part of POST /mcp for a request that names a session. */
    method PostOnSession(req: Request, ex: Exchange) returns (reply: Reply)
      requires Valid() && TruthyText(SessionIdOf(req))
      modifies this
      ensures Valid() && StepResult(State(), reply) == PostRoute(old(State()), req, ex)
    {
      PostPreservesInvariant(State(), req, ex);
      var sessionId := SessionIdOf(req).value;
      if sessionId !in transports {
        if sessionId in OBJECT_PROTOTYPE_KEYS {
          return Status(500, INTERNAL_ERROR_TEXT);
        }
        return Status(404, NOT_FOUND_TEXT);
      }
      var entry := transports[sessionId];
      var enriched := Enrich(req.body, MetaOf(req));
      if enriched.None? {
        return Status(500, INTERNAL_ERROR_TEXT);
      }
      HandleRequest(entry.transport, HttpMethod.Post, enriched, ex.closes);
      reply := Settle(ex.completion);
    }

    /** The part of POST /mcp for an initialize request without a session:
        create the transport and server, hand the request over, and register
        the session id the transport was assigned. */
    method Initialize(req: Request, ex: Exchange) returns (reply: Reply)
      requires Valid() && !TruthyText(SessionIdOf(req)) && IsInitializeRequest(req.body)
      modifies this
      ensures Valid() && StepResult(State(), reply) == PostRoute(old(State()), req, ex)
    {
      PostPreservesInvariant(State(), req, ex);
      var serial := created;
      var server := ServerHandle(serial);
      created := created + 1;
      var enriched := Enrich(req.body, MetaOf(req));
      if enriched.None? {
        return Status(500, INTERNAL_ERROR_TEXT);
      }
      var transport := Transport(serial, ex.assignedId);
      HandleRequest(transport, HttpMethod.Post, enriched, ex.closes);
      if ex.completion.Threw? {
        return Settle(ex.completion);
      }
      var sid := transport.sessionId;
      if sid.Some? && sid.value != "" {
        transports := transports[sid.value := Entry(transport, server)];
      }
      reply := TransportReply;
    }

    /** GET /mcp (m == Get) and DELETE /mcp (m == Delete). */
    method Resume(req: Request, m: SessionVerb, ex: Exchange) returns (reply: Reply)
      requires Valid()
      modifies this
      ensures Valid() && StepResult(State(), reply) == SessionRoute(old(State()), req, m, ex)
    {
      SessionRoutePreservesInvariant(State(), req, m, ex);
      var sessionId := SessionIdOf(req);
      if sessionId.None? || sessionId.value == "" ||
         (sessionId.value !in transports && sessionId.value !in OBJECT_PROTOTYPE_KEYS) {
        return Status(404, NOT_FOUND_TEXT);
      }
      if sessionId.value !in transports {
        return Status(500, INTERNAL_ERROR_TEXT);
      }
      HandleRequest(transports[sessionId.value].transport, m, None, ex.closes);
      reply := Settle(ex.completion);
    }
  }

  /** A session's life through the object: initialize, a call, an explicit
      DELETE that closes the transport, and a call that is then refused. */
  method SessionLifecycle(init: Request, call: Request, id: string) returns (replies: seq<Reply>)
    requires !TruthyText(SessionIdOf(init)) && IsInitializeRequest(init.body)
    requires id != "" && SessionIdOf(call) == Some(id) && Enrich(call.body, MetaOf(call)).Some?
    ensures replies == [TransportReply, TransportReply, TransportReply,
                        if id in OBJECT_PROTOTYPE_KEYS then Status(500, INTERNAL_ERROR_TEXT) else Status(404, NOT_FOUND_TEXT)]
  {
    var table := new SessionTable();
    InitializeRegistersSession(table.State(), init, id, false);
    var r1 := table.Post(init, Exchange(Some(id), false, Completed));
    assert id in table.transports;
    var r2 := table.Post(call, Exchange(None, false, Completed));
    assert id in table.transports;
    var r3 := table.Resume(call, Delete, Exchange(None, true, Completed));
    assert id !in table.transports;
    var r4 := table.Post(call, Exchange(None, false, Completed));
    replies := [r1, r2, r3, r4];
  }
}
