/**
 * The API gateway client (src/lib/api.ts): the request hook that attaches the
 * bearer credential, the response hook that reacts to 401, and the table that
 * maps every resource operation to an HTTP method, a URL and a body.
 */
module Gateway {
  import opened Wrappers
  import opened Text
  import opened Storage
  import opened Entities

  // ---------------------------------------------------------------------------
  // Request hook

  const AuthorizationHeader := "Authorization"

  /** The outgoing request's configuration, whose headers the hook edits in place. */
  class RequestConfig {
    var url: string
    var headers: map<string, string>

    constructor (url: string, headers: map<string, string>)
      ensures this.url == url && this.headers == headers
    {
      this.url := url;
      this.headers := headers;
    }
  }

  /** The headers after the request hook: a bearer header exactly when a non-empty token is stored. */
  function WithBearer(headers: map<string, string>, store: Store): (h: map<string, string>)
    ensures forall k :: k != AuthorizationHeader ==> (k in h <==> k in headers)
    ensures forall k :: k != AuthorizationHeader && k in h ==> h[k] == headers[k]
    ensures Truthy(Get(store, TokenKey)) ==>
              AuthorizationHeader in h && h[AuthorizationHeader] == "Bearer " + store[TokenKey]
    ensures !Truthy(Get(store, TokenKey)) ==> h == headers
  {
    var token := Get(store, TokenKey);
    if Truthy(token) then headers[AuthorizationHeader := "Bearer " + token.value] else headers
  }

  /** The request interceptor: reads the stored token and edits `config.headers`; storage is only read. */
  method AttachCredential(config: RequestConfig, storage: LocalStorage)
    modifies config
    ensures config.headers == WithBearer(old(config.headers), storage.items)
    ensures config.url == old(config.url)
    ensures storage.items == old(storage.items)
  {
    var token := storage.GetItem(TokenKey);
    if Truthy(token) {
      config.headers := config.headers[AuthorizationHeader := "Bearer " + token.value];
    }
  }

  // ---------------------------------------------------------------------------
  // Response hook

  const LoginPath := "/login"

  predicate IsUnauthorized<T>(reply: Reply<T>) {
    reply.Failed? && reply.status == Some(401)
  }

  /** The store after the response hook: a 401 removes `token` and nothing else. */
  function AfterResponse<T>(store: Store, reply: Reply<T>): (r: Store)
    ensures forall k :: k != TokenKey ==> Get(r, k) == Get(store, k)
    ensures IsUnauthorized(reply) ==> TokenKey !in r
    ensures !IsUnauthorized(reply) ==> r == store
  {
    if IsUnauthorized(reply) then store - {TokenKey} else store
  }

  /**
   * The response interceptor: every outcome reaches the caller unchanged (a
   * rejection stays a rejection); a 401 also purges the token and navigates
   * to the login page.
   */
  method OnResponse<T>(storage: LocalStorage, reply: Reply<T>) returns (result: Reply<T>, navigate: Option<string>)
    modifies storage
    ensures storage.items == AfterResponse(old(storage.items), reply)
    ensures result == reply
    ensures navigate.Some? <==> IsUnauthorized(reply)
    ensures navigate.Some? ==> navigate.value == LoginPath
  {
    navigate := None;
    if reply.Failed? && reply.status == Some(401) {
      storage.RemoveItem(TokenKey);
      navigate := Some(LoginPath);
    }
    result := reply;
  }

  /** Purging on 401 is idempotent: a second 401 finds no token and changes nothing. */
  lemma AfterResponseIdempotent<T>(store: Store, reply: Reply<T>)
    ensures AfterResponse(AfterResponse(store, reply), reply) == AfterResponse(store, reply)
  {
  }

  // ---------------------------------------------------------------------------
  // Resource operations

  datatype HttpMethod = GET | POST | PUT | DELETE

  datatype Body = NoBody | Payload(data: Json)

  datatype Request = Request(verb: HttpMethod, url: string, body: Body)

  /** The typed calls of `authAPI`, `groupsAPI` and `expensesAPI`. */
  datatype Operation =
    | Login(email: string, password: string)
    | Register(name: string, email: string, password: string)
    | GetCurrentUser
    | GetGroups
    | GetGroup(id: int)
    | CreateGroup(data: Json)
    | UpdateGroup(id: int, data: Json)
    | DeleteGroup(id: int)
    | SendInvitation(groupId: int, email: string)
    | GetInvitations
    | AcceptInvitation(invitationId: int)
    | RejectInvitation(invitationId: int)
    | AddMember(groupId: int, email: string)
    | GetExpenses(groupFilter: Option<int>)
    | GetExpense(id: int)
    | CreateExpense(data: Json)
    | UpdateExpense(id: int, data: Json)
    | DeleteExpense(id: int)
  {
    predicate IsRead() {
      GetCurrentUser? || GetGroups? || GetGroup? || GetInvitations? || GetExpenses? || GetExpense?
    }
    predicate IsUpdate() { UpdateGroup? || UpdateExpense? }
    predicate IsDelete() { DeleteGroup? || DeleteExpense? }
    predicate HasBody() {
      Login? || Register? || CreateGroup? || UpdateGroup? || SendInvitation? || AddMember? ||
      CreateExpense? || UpdateExpense?
    }
  }

  /** An absolute path from its segments: `Path(["groups", "7"])` is "/groups/7". */
  function Path(segments: seq<string>): string
    requires |segments| >= 1
  {
    "/" + Join(segments, '/')
  }

  /** The body `{ email }` that invitations and member additions send. */
  function EmailBody(email: string): Body {
    Payload(JObject(map["email" := JString(email)]))
  }

  const ExpensesByGroup := "expenses?group_id="

  /** `getExpenses(groupId)`: the group filter is sent only for a truthy (defined, non-zero) id. */
  function ExpensesUrl(groupId: Option<int>): (r: string)
    ensures groupId.None? || groupId.value == 0 ==> r == "/expenses"
    ensures groupId.Some? && groupId.value != 0 ==>
              |r| > |"/" + ExpensesByGroup| && r[..|"/" + ExpensesByGroup|] == "/" + ExpensesByGroup &&
              ParseDecimal(r[|"/" + ExpensesByGroup|..]) == groupId
  {
    if groupId.Some? && groupId.value != 0 then
      var r := Path([ExpensesByGroup + Decimal(groupId.value)]);
      assert r == "/" + ExpensesByGroup + Decimal(groupId.value);
      assert r[|"/" + ExpensesByGroup|..] == Decimal(groupId.value);
      DecimalRoundTrip(groupId.value);
      r
    else Path(["expenses"])
  }

  /** The request each operation issues. */
  function Route(op: Operation): (r: Request)
    ensures r.verb == GET <==> op.IsRead()
    ensures r.verb == PUT <==> op.IsUpdate()
    ensures r.verb == DELETE <==> op.IsDelete()
    ensures r.body.Payload? <==> op.HasBody()
  {
    match op
    case Login(email, password) =>
      Request(POST, Path(["auth", "login"]), Payload(JObject(map["email" := JString(email), "password" := JString(password)])))
    case Register(name, email, password) =>
      Request(POST, Path(["auth", "register"]),
              Payload(JObject(map["name" := JString(name), "email" := JString(email),
                                 "password" := JString(password)])))
    case GetCurrentUser => Request(GET, Path(["auth", "me"]), NoBody)
    case GetGroups => Request(GET, Path(["groups"]), NoBody)
    case GetGroup(id) => Request(GET, Path(["groups", Decimal(id)]), NoBody)
    case CreateGroup(data) => Request(POST, Path(["groups"]), Payload(data))
    case UpdateGroup(id, data) => Request(PUT, Path(["groups", Decimal(id)]), Payload(data))
    case DeleteGroup(id) => Request(DELETE, Path(["groups", Decimal(id)]), NoBody)
    case SendInvitation(groupId, email) =>
      Request(POST, Path(["groups", Decimal(groupId), "invite"]), EmailBody(email))
    case GetInvitations => Request(GET, Path(["invitations"]), NoBody)
    case AcceptInvitation(id) => Request(POST, Path(["invitations", Decimal(id), "accept"]), NoBody)
    case RejectInvitation(id) => Request(POST, Path(["invitations", Decimal(id), "reject"]), NoBody)
    case AddMember(groupId, email) =>
      Request(POST, Path(["groups", Decimal(groupId), "members"]), EmailBody(email))
    case GetExpenses(groupId) => Request(GET, ExpensesUrl(groupId), NoBody)
    case GetExpense(id) => Request(GET, Path(["expenses", Decimal(id)]), NoBody)
    case CreateExpense(data) => Request(POST, Path(["expenses"]), Payload(data))
    case UpdateExpense(id, data) => Request(PUT, Path(["expenses", Decimal(id)]), Payload(data))
    case DeleteExpense(id) => Request(DELETE, Path(["expenses", Decimal(id)]), NoBody)
  }

  // ---------------------------------------------------------------------------
  // The same table read backwards, as the server's router would

  function StringField(body: Body, key: string): Option<string> {
    if body.Payload? && body.data.JObject? && key in body.data.fields && body.data.fields[key].JString?
    then Some(body.data.fields[key].s)
    else None
  }

  function DispatchGet(s: seq<string>): Option<Operation> {
    if s == ["auth", "me"] then Some(GetCurrentUser)
    else if s == ["groups"] then Some(GetGroups)
    else if s == ["invitations"] then Some(GetInvitations)
    else if s == ["expenses"] then Some(GetExpenses(None))
    else if |s| == 1 && |ExpensesByGroup| <= |s[0]| && s[0][..|ExpensesByGroup|] == ExpensesByGroup
            && ParseDecimal(s[0][|ExpensesByGroup|..]).Some? then
      Some(GetExpenses(ParseDecimal(s[0][|ExpensesByGroup|..])))
    else if |s| == 2 && s[0] == "groups" && ParseDecimal(s[1]).Some? then
      Some(GetGroup(ParseDecimal(s[1]).value))
    else if |s| == 2 && s[0] == "expenses" && ParseDecimal(s[1]).Some? then
      Some(GetExpense(ParseDecimal(s[1]).value))
    else None
  }

  function DispatchPost(s: seq<string>, body: Body): Option<Operation> {
    if s == ["auth", "login"] && StringField(body, "email").Some? && StringField(body, "password").Some? then
      Some(Login(StringField(body, "email").value, StringField(body, "password").value))
    else if s == ["auth", "register"] && StringField(body, "name").Some? && StringField(body, "email").Some?
            && StringField(body, "password").Some? then
      Some(Register(StringField(body, "name").value, StringField(body, "email").value,
                    StringField(body, "password").value))
    else if s == ["groups"] && body.Payload? then Some(CreateGroup(body.data))
    else if s == ["expenses"] && body.Payload? then Some(CreateExpense(body.data))
    else if |s| == 3 && s[0] == "groups" && ParseDecimal(s[1]).Some? && StringField(body, "email").Some? then
      if s[2] == "invite" then Some(SendInvitation(ParseDecimal(s[1]).value, StringField(body, "email").value))
      else if s[2] == "members" then Some(AddMember(ParseDecimal(s[1]).value, StringField(body, "email").value))
      else None
    else if |s| == 3 && s[0] == "invitations" && ParseDecimal(s[1]).Some? then
      if s[2] == "accept" then Some(AcceptInvitation(ParseDecimal(s[1]).value))
      else if s[2] == "reject" then Some(RejectInvitation(ParseDecimal(s[1]).value))
      else None
    else None
  }

  function DispatchWrite(s: seq<string>, verb: HttpMethod, body: Body): Option<Operation> {
    if |s| == 2 && ParseDecimal(s[1]).Some? then
      var id := ParseDecimal(s[1]).value;
      if s[0] == "groups" then
        if verb == DELETE then Some(DeleteGroup(id))
        else if body.Payload? then Some(UpdateGroup(id, body.data)) else None
      else if s[0] == "expenses" then
        if verb == DELETE then Some(DeleteExpense(id))
        else if body.Payload? then Some(UpdateExpense(id, body.data)) else None
      else None
    else None
  }

  /** Which operation a request stands for, if any. */
  function Dispatch(r: Request): Option<Operation> {
    if |r.url| == 0 || r.url[0] != '/' then None
    else
      var s := Split(r.url[1..], '/');
      match r.verb
      case GET => DispatchGet(s)
      case POST => DispatchPost(s, r.body)
      case PUT => DispatchWrite(s, PUT, r.body)
      case DELETE => DispatchWrite(s, DELETE, r.body)
  }

  /** `getExpenses(0)` and `getExpenses()` issue the same request; every other operation is its own. */
  function Canonical(op: Operation): Operation {
    if op == GetExpenses(Some(0)) then GetExpenses(None) else op
  }

  lemma PathSegments(segments: seq<string>)
    requires |segments| >= 1
    requires forall i :: 0 <= i < |segments| ==> '/' !in segments[i]
    ensures |Path(segments)| >= 1 && Path(segments)[0] == '/'
    ensures Split(Path(segments)[1..], '/') == segments
  {
    assert Path(segments)[1..] == Join(segments, '/');
    SplitJoin(segments, '/');
  }

  lemma IdSegment(id: int)
    ensures '/' !in Decimal(id)
    ensures ParseDecimal(Decimal(id)) == Some(id)
  {
    DecimalHasNo(id, '/');
    DecimalRoundTrip(id);
  }

  /** Dispatching a request built from segments looks at exactly those segments. */
  lemma DispatchPath(verb: HttpMethod, segments: seq<string>, body: Body)
    requires |segments| >= 1
    requires forall i :: 0 <= i < |segments| ==> '/' !in segments[i]
    ensures Dispatch(Request(verb, Path(segments), body)) ==
              match verb
              case GET => DispatchGet(segments)
              case POST => DispatchPost(segments, body)
              case PUT => DispatchWrite(segments, PUT, body)
              case DELETE => DispatchWrite(segments, DELETE, body)
  {
    PathSegments(segments);
  }

  lemma DispatchAuth(op: Operation)
    requires op.Login? || op.Register? || op.GetCurrentUser?
    ensures Dispatch(Route(op)) == Some(op)
  {
    match op
    case Login(email, password) =>
      DispatchPath(POST, ["auth", "login"], Route(op).body);
    case Register(name, email, password) =>
      DispatchPath(POST, ["auth", "register"], Route(op).body);
      assert ["auth", "register"] != ["auth", "login"] by { assert "register"[0] != "login"[0]; }
    case GetCurrentUser =>
      DispatchPath(GET, ["auth", "me"], NoBody);
  }

  lemma DispatchCollections(op: Operation)
    requires op.GetGroups? || op.CreateGroup? || op.GetInvitations? || op.CreateExpense?
    ensures Dispatch(Route(op)) == Some(op)
  {
    match op
    case GetGroups =>
      DispatchPath(GET, ["groups"], NoBody);
    case CreateGroup(data) =>
      DispatchPath(POST, ["groups"], Payload(data));
    case GetInvitations =>
      DispatchPath(GET, ["invitations"], NoBody);
      assert ["invitations"] != ["groups"] by { assert "invitations"[0] != "groups"[0]; }
    case CreateExpense(data) =>
      DispatchPath(POST, ["expenses"], Payload(data));
      assert ["expenses"] != ["groups"] by { assert "expenses"[0] != "groups"[0]; }
  }

  lemma DispatchGroup(op: Operation)
    requires op.GetGroup? || op.UpdateGroup? || op.DeleteGroup?
    ensures Dispatch(Route(op)) == Some(op)
  {
    IdSegment(op.id);
    DispatchPath(Route(op).verb, ["groups", Decimal(op.id)], Route(op).body);
  }

  lemma DispatchExpense(op: Operation)
    requires op.GetExpense? || op.UpdateExpense? || op.DeleteExpense?
    ensures Dispatch(Route(op)) == Some(op)
  {
    IdSegment(op.id);
    DispatchPath(Route(op).verb, ["expenses", Decimal(op.id)], Route(op).body);
    assert "expenses" != "groups" by { assert "expenses"[0] != "groups"[0]; }
  }

  lemma DispatchMembership(op: Operation)
    requires op.SendInvitation? || op.AddMember?
    ensures Dispatch(Route(op)) == Some(op)
  {
    IdSegment(op.groupId);
    var body := EmailBody(op.email);
    assert StringField(body, "email") == Some(op.email);
    var segs := ["groups", Decimal(op.groupId), if op.SendInvitation? then "invite" else "members"];
    DispatchPath(POST, segs, body);
    assert |segs| == 3 && segs[0] == "groups";
    assert DispatchPost(segs, body) == Some(op) by {
      assert segs != ["auth", "login"] && segs != ["auth", "register"];
      assert segs != ["groups"] && segs != ["expenses"];
      assert "members" != "invite" by { assert "members"[0] != "invite"[0]; }
    }
  }

  /** The router's reading of `/invitations/<id>/<action>` without a body. */
  lemma DispatchInvitationSegments(id: int, action: string)
    requires action == "accept" || action == "reject"
    ensures DispatchPost(["invitations", Decimal(id), action], NoBody) ==
              Some(if action == "accept" then AcceptInvitation(id) else RejectInvitation(id))
  {
    var segs := ["invitations", Decimal(id), action];
    IdSegment(id);
    assert StringField(NoBody, "email") == None;
    assert segs != ["auth", "login"] && segs != ["auth", "register"];
    assert segs != ["groups"] && segs != ["expenses"];
    assert segs[0] != "groups" by { assert "invitations"[0] != "groups"[0]; }
    assert "reject" != "accept" by { assert "reject"[0] != "accept"[0]; }
  }

  lemma DispatchInvitation(op: Operation)
    requires op.AcceptInvitation? || op.RejectInvitation?
    ensures Dispatch(Route(op)) == Some(op)
  {
    var action := if op.AcceptInvitation? then "accept" else "reject";
    IdSegment(op.invitationId);
    DispatchInvitationSegments(op.invitationId, action);
    DispatchPath(POST, ["invitations", Decimal(op.invitationId), action], NoBody);
  }

  lemma DispatchFilteredSegment(g: int)
    ensures DispatchGet([ExpensesByGroup + Decimal(g)]) == Some(GetExpenses(Some(g)))
  {
    var seg := ExpensesByGroup + Decimal(g);
    IdSegment(g);
    assert seg[..|ExpensesByGroup|] == ExpensesByGroup;
    assert seg[|ExpensesByGroup|..] == Decimal(g);
    assert seg[0] == 'e' && |seg| > |"expenses"|;
    assert [seg] != ["auth", "me"];
    assert [seg] != ["groups"] by { assert seg[0] != "groups"[0]; }
    assert [seg] != ["invitations"] by { assert seg[0] != "invitations"[0]; }
    assert [seg] != ["expenses"] by { assert |seg| != |"expenses"|; }
  }

  /** A filtered list request `/expenses?group_id=<g>` reads back as that filter. */
  lemma DispatchFilteredList(g: int)
    requires g != 0
    ensures Dispatch(Route(GetExpenses(Some(g)))) == Some(GetExpenses(Some(g)))
  {
    var seg := ExpensesByGroup + Decimal(g);
    IdSegment(g);
    assert '/' !in seg;
    assert Route(GetExpenses(Some(g))) == Request(GET, Path([seg]), NoBody);
    DispatchPath(GET, [seg], NoBody);
    DispatchFilteredSegment(g);
  }

  /** The unfiltered list request `/expenses` reads back as no filter. */
  lemma DispatchUnfilteredList()
    ensures Dispatch(Request(GET, Path(["expenses"]), NoBody)) == Some(GetExpenses(None))
  {
    DispatchPath(GET, ["expenses"], NoBody);
    assert DispatchGet(["expenses"]) == Some(GetExpenses(None)) by {
      assert ["expenses"] != ["groups"] by { assert "expenses"[0] != "groups"[0]; }
      assert ["expenses"] != ["invitations"] by { assert "expenses"[0] != "invitations"[0]; }
    }
  }

  lemma DispatchExpenseList(groupFilter: Option<int>)
    ensures Dispatch(Route(GetExpenses(groupFilter))) == Some(Canonical(GetExpenses(groupFilter)))
  {
    if groupFilter.Some? && groupFilter.value != 0 {
      DispatchFilteredList(groupFilter.value);
    } else {
      assert Route(GetExpenses(groupFilter)) == Request(GET, Path(["expenses"]), NoBody);
      DispatchUnfilteredList();
    }
  }

  /** Every request the gateway issues identifies its operation (up to `getExpenses(0)`). */
  lemma RouteDispatch(op: Operation)
    ensures Dispatch(Route(op)) == Some(Canonical(op))
  {
    if op.GetExpenses? {
      DispatchExpenseList(op.groupFilter);
    } else {
      assert Canonical(op) == op;
      if op.Login? || op.Register? || op.GetCurrentUser? {
        DispatchAuth(op);
      } else if op.GetGroups? || op.CreateGroup? || op.GetInvitations? || op.CreateExpense? {
        DispatchCollections(op);
      } else if op.GetGroup? || op.UpdateGroup? || op.DeleteGroup? {
        DispatchGroup(op);
      } else if op.GetExpense? || op.UpdateExpense? || op.DeleteExpense? {
        DispatchExpense(op);
      } else if op.SendInvitation? || op.AddMember? {
        DispatchMembership(op);
      } else {
        DispatchInvitation(op);
      }
    }
  }

  /** Two operations that issue the same request are the same operation (up to `getExpenses(0)`). */
  lemma RouteInjective(a: Operation, b: Operation)
    ensures Route(a) == Route(b) ==> Canonical(a) == Canonical(b)
  {
    RouteDispatch(a);
    RouteDispatch(b);
  }
}
