/**
 The proxy pipeline (`mcp_proxy` and `_AuthContext` in api/app/gateway/router.py): a POST
 passes its gates one by one, and each gate it passes leaves an event on the trace.
 */
module Gateway {
  import opened Wrappers
  import opened Subjects
  import opened Patterns
  import opened ToolFilter
  import Permissions
  import RbacRepositories
  import RateLimiting
  import Sessions

  // ----- requests --------------------------------------------------------------------------

  datatype Method =
    | Initialize | Initialized | Ping | ToolsList | ToolsCall | ResourcesList | ResourcesRead | ResourcesSubscribe
    | ResourcesUnsubscribe | PromptsList | PromptsGet | CreateMessage | RootsList | Terminate
  {
    function Name(): string {
      match this
      case Initialize => "initialize"
      case Initialized => "notifications/initialized"
      case Ping => "ping"
      case ToolsList => "tools/list"
      case ToolsCall => "tools/call"
      case ResourcesList => "resources/list"
      case ResourcesRead => "resources/read"
      case ResourcesSubscribe => "resources/subscribe"
      case ResourcesUnsubscribe => "resources/unsubscribe"
      case PromptsList => "prompts/list"
      case PromptsGet => "prompts/get"
      case CreateMessage => "sampling/createMessage"
      case RootsList => "roots/list"
      case Terminate => "session/terminate"
    }

    predicate NeedsPermission() {
      ToolsCall? || ResourcesRead? || ResourcesSubscribe? || ResourcesUnsubscribe? || PromptsGet? || CreateMessage?
    }

    predicate IsList() {
      ToolsList? || ResourcesList? || PromptsList? || RootsList?
    }

    /** Where a list response keeps its items. */
    function ListKey(): string {
      match this
      case ToolsList => "tools"
      case ResourcesList => "resources"
      case PromptsList => "prompts"
      case _ => "roots"
    }

    /** Where an item of a list, or a call of the same kind, names its resource. */
    function NameKey(): string {
      if ToolsList? || PromptsList? || ToolsCall? || PromptsGet? then "name" else "uri"
    }
  }

  /** A parsed call. Missing and empty parameters are the same to the router. */
  datatype Rpc = Rpc(op: Method, id: Option<string>, params: map<string, Json>) {
    /** The resource that the call names; a JSON null counts as absent. */
    function Resource(): Option<Json> {
      if params == map[] || !op.NeedsPermission() then None
      else if op.CreateMessage? then Some(Str("createMessage"))
      else if op.NameKey() in params && params[op.NameKey()] != Null then Some(params[op.NameKey()])
      else None
    }

    /** What the rate limiter sees: the resource if it has a name, else the method. */
    function RateName(): string {
      if Resource().Some? && Resource().value.Str? && Resource().value.s != "" then Resource().value.s else op.Name()
    }
  }

  datatype Body = TooLarge | Unparsable(status: int) | Parsed(rpc: Rpc)

  datatype Request = Request(body: Body, token: string, slug: string, session: Option<string>, dryRun: bool,
                             acceptsStream: bool, now: real, member: string)

  /** A header that is present and not empty. */
  predicate Present(header: Option<string>) {
    header.Some? && header.value != ""
  }

  // ----- the world around a request -----------------------------------------------------------

  datatype ServerStatus = Active | Disabled | Unhealthy

  datatype Server = Server(url: string, status: ServerStatus)

  /** The upstream's answer: its size is bounded by what it declares and again by what it sends; a body
      that is no JSON is None. */
  datatype Reply = Reply(status: int, session: Option<string>, declaredTooLarge: bool, tooLarge: bool,
                         eventStream: bool,
                         body: Option<Json>)

  /** The places where an unexpected exception ends the request: with status 500, or with 503 where
      Redis fails under the rate limiter. */
  datatype Stage =
    | AuthStage | ServerStage | PermissionStage | PolicyStage | LimiterStage | CapStage | ForwardStage | ReadStage
    | FilterStage

  /** The collaborators of the pipeline as one request finds them: the verdict on the client
      address (None when Redis fails), credentials, the server registry, the upstream allow
      list, the permission tables, the rate policies, the usage cap, the upstream (None when
      it cannot be reached), and the stages that raise. */
  datatype World = World(
    preAuth: Option<bool>,
    authenticate: string -> Option<Subject>,
    servers: (string, string) -> Option<Server>,
    urlAllowed: string -> bool,
    glob: Glob,
    tables: RbacRepositories.Tables,
    limits: RateLimiting.Env,
    underCap: string -> bool,
    upstream: Option<Reply>,
    failing: set<Stage>)

  datatype Response =
    | Error(status: int)
    | Explained
    | NoContent(session: Option<string>)
    | Streamed(status: int, session: Option<string>)
    | Relayed(status: int, session: Option<string>)
    | Listed(status: int, session: Option<string>, body: Json)

  datatype Event =
    | Authenticated(subject: Subject)
    | Resolved(server: Server)
    | SessionChecked(session: Option<string>)
    | Granted(name: string)
    | RateAdmitted(tool: string)
    | Forwarded(url: string)

  // ----- what each gate asks ------------------------------------------------------------------

  function Identity(w: World, req: Request): Option<Subject> {
    if w.preAuth == Some(true) && req.token != "" && AuthStage !in w.failing then w.authenticate(req.token) else None
  }

  function Rules(w: World, s: Subject): seq<Permissions.Rule> {
    RbacRepositories.PermissionsForSubject(w.tables, s.tenant, s.kind, s.id)
  }

  function Caller(s: Subject, slug: string): Sessions.Owner {
    Sessions.Owner(s.tenant, s.id, slug)
  }

  predicate ServerReady(w: World, req: Request, s: Subject, server: Server) {
    && ServerStage !in w.failing && w.servers(s.tenant, req.slug) == Some(server)
    && w.urlAllowed(server.url) && server.status == Active
  }

  /** No other server is ready for this request. */
  ghost predicate OnlyReady(w: World, req: Request, s: Subject, server: Server) {
    forall other :: ServerReady(w, req, s, other) ==> other == server
  }

  predicate SessionOwned(req: Request, s: Subject, e: Sessions.Entries, up: bool) {
    Present(req.session) ==>
      && Sessions.ValidId(req.session.value) && up
      && Sessions.OwnerAt(e, req.now, req.session.value) == Some(Caller(s, req.slug))
  }

  /** The resource is named by a string, and the rules allow it. */
  predicate ResourceAllowed(w: World, req: Request, s: Subject, rpc: Rpc) {
    && rpc.Resource().Some? && PermissionStage !in w.failing
    && CallAllowed(w.glob, req.slug, rpc.Resource().value, Rules(w, s)) == Some(true)
  }

  function RateRequest(req: Request, s: Subject, tool: string): RateLimiting.Request {
    RateLimiting.Request(s.tenant, s.id, s.kind, req.slug, tool, req.now, req.member)
  }

  predicate LimiterReached(w: World) {
    PolicyStage !in w.failing && LimiterStage !in w.failing
  }

  ghost function RateVerdict(w: World, req: Request, s: Subject, tool: string,
                             store: RateLimiting.Store): RateLimiting.Verdict
    requires w.limits.Valid()
  {
    RateLimiting.PlansAreValid(w.limits, RateRequest(req, s, tool));
    RateLimiting.Step(w.limits, store, RateRequest(req, s, tool)).1
  }

  ghost predicate RateAllows(w: World, req: Request, s: Subject, tool: string, store: RateLimiting.Store)
    requires w.limits.Valid()
  {
    LimiterReached(w) && RateVerdict(w, req, s, tool, store) == RateLimiting.Allowed
  }

  ghost function RateStore(w: World, req: Request, s: Subject, tool: string,
                           store: RateLimiting.Store): RateLimiting.Store
    requires w.limits.Valid()
  {
    RateLimiting.PlansAreValid(w.limits, RateRequest(req, s, tool));
    RateLimiting.Step(w.limits, store, RateRequest(req, s, tool)).0
  }

  /** The caller is known, the server is ready, the session is the caller's, and the resource, if
      the method needs one, is allowed. */
  predicate GatesPassed(w: World, req: Request, rpc: Rpc, s: Subject, server: Server, e: Sessions.Entries, up: bool) {
    && Identity(w, req) == Some(s)
    && ServerReady(w, req, s, server)
    && SessionOwned(req, s, e, up)
    && (rpc.op.NeedsPermission() ==> ResourceAllowed(w, req, s, rpc))
  }

  /** Everything that a request must pass before it is forwarded. Termination needs a session
      to end, and ignores dry runs and the usage cap. */
  ghost predicate Cleared(w: World, req: Request, rpc: Rpc, s: Subject, server: Server,
                          e: Sessions.Entries, up: bool, store: RateLimiting.Store)
    requires w.limits.Valid()
  {
    && GatesPassed(w, req, rpc, s, server, e, up)
    && RateAllows(w, req, s, rpc.RateName(), store)
    && if rpc.op.Terminate? then Present(req.session)
       else !req.dryRun && (rpc.op.ToolsCall? ==> CapStage !in w.failing && w.underCap(s.tenant))
  }

  /** The events of a request that passes the gates, and of one that is forwarded. */
  function Gates(s: Subject, server: Server, req: Request, rpc: Rpc): seq<Event> {
    if ResourceName(rpc).Some?
    then [Authenticated(s), Resolved(server), SessionChecked(req.session), Granted(ResourceName(rpc).value)]
    else [Authenticated(s), Resolved(server), SessionChecked(req.session)]
  }

  function Path(s: Subject, server: Server, req: Request, rpc: Rpc): seq<Event> {
    Gates(s, server, req, rpc) + [RateAdmitted(rpc.RateName()), Forwarded(server.url)]
  }

  function ResourceName(rpc: Rpc): Option<string> {
    if rpc.op.NeedsPermission() && rpc.Resource().Some? && rpc.Resource().value.Str?
    then Some(rpc.Resource().value.s) else None
  }

  /** What an event on the trace attests about the world that the request found. */
  ghost predicate Attested(w: World, req: Request, rpc: Rpc, s: Subject, e: Sessions.Entries, up: bool,
                           store: RateLimiting.Store, event: Event)
    requires w.limits.Valid()
  {
    match event
    case Authenticated(subject) => subject == s && Identity(w, req) == Some(s)
    case Resolved(server) => ServerReady(w, req, s, server)
    case SessionChecked(session) => session == req.session && SessionOwned(req, s, e, up)
    case Granted(name) => Permissions.Permitted(w.glob, req.slug, name, Rules(w, s))
    case RateAdmitted(tool) => RateAllows(w, req, s, tool, store)
    case Forwarded(_) => true
  }

  ghost predicate AllAttested(w: World, req: Request, rpc: Rpc, s: Subject, e: Sessions.Entries, up: bool,
                              store: RateLimiting.Store, trace: seq<Event>)
    requires w.limits.Valid()
  {
    forall event :: event in trace ==> Attested(w, req, rpc, s, e, up, store, event)
  }

  /** The trace follows the path of one server, every event on it is true, and it reaches the end
      exactly when the request is cleared. */
  ghost predicate Follows(w: World, req: Request, rpc: Rpc, s: Subject, server: Server, e: Sessions.Entries, up: bool,
                          store: RateLimiting.Store, trace: seq<Event>)
    requires w.limits.Valid()
  {
    && OnlyReady(w, req, s, server)
    && trace <= Path(s, server, req, rpc)
    && AllAttested(w, req, rpc, s, e, up, store, trace)
    && (trace == Path(s, server, req, rpc) <==> Cleared(w, req, rpc, s, server, e, up, store))
  }

  ghost predicate ValidTrace(w: World, req: Request, rpc: Rpc, e: Sessions.Entries, up: bool,
                             store: RateLimiting.Store, trace: seq<Event>)
    requires w.limits.Valid()
  {
    match Identity(w, req)
    case None => trace == []
    case Some(s) => exists server :: Follows(w, req, rpc, s, server, e, up, store, trace)
  }

  /** A request that stopped at a gate. */
  ghost predicate Halted(w: World, req: Request, rpc: Rpc, s: Subject, server: Server, e: Sessions.Entries, up: bool,
                         store: RateLimiting.Store, trace: seq<Event>)
    requires w.limits.Valid()
  {
    && OnlyReady(w, req, s, server)
    && trace <= Gates(s, server, req, rpc)
    && AllAttested(w, req, rpc, s, e, up, store, trace)
    && !Cleared(w, req, rpc, s, server, e, up, store)
  }

  lemma HaltedFollows(w: World, req: Request, rpc: Rpc, s: Subject, server: Server, e: Sessions.Entries, up: bool,
                      store: RateLimiting.Store, trace: seq<Event>)
    requires w.limits.Valid() && Halted(w, req, rpc, s, server, e, up, store, trace)
    ensures Follows(w, req, rpc, s, server, e, up, store, trace)
  {
    assert Gates(s, server, req, rpc) <= Path(s, server, req, rpc);
  }

  function Ids(header: Option<string>): set<string> {
    if Present(header) then {header.value} else {}
  }

  /** Every id but these has the owner that it had. */
  ghost predicate SameOwners(before: Sessions.Entries, after: Sessions.Entries, now: real, but: set<string>) {
    forall id :: id !in but ==> Sessions.OwnerAt(after, now, id) == Sessions.OwnerAt(before, now, id)
  }

  /** The upstream answered a call that waits for it, with a body that fits or is streamed. */
  predicate Delivered(w: World, req: Request, rpc: Rpc) {
    && ForwardStage !in w.failing && w.upstream.Some? && rpc.id.Some?
    && (req.acceptsStream ||
        (!w.upstream.value.declaredTooLarge && ReadStage !in w.failing && !w.upstream.value.tooLarge))
  }

  /** The session id of an answer, if it has the right shape. */
  function IssuedId(reply: Reply): Option<string> {
    if Present(reply.session) && Sessions.ValidId(reply.session.value) then reply.session else None
  }

  /** The session id that the answer to a notification passes on: any new one, whatever its shape and
      whoever holds it, and without pinning it. */
  function EchoedUnpinned(req: Request, reply: Reply): Option<string> {
    if Present(reply.session) && reply.session != req.session then reply.session else None
  }

  /** The id of the answer belongs to somebody else. */
  ghost predicate Conflicts(req: Request, s: Subject, reply: Reply, before: Sessions.Entries, up: bool) {
    && IssuedId(reply).Some? && up
    && Sessions.OwnerAt(before, req.now, IssuedId(reply).value) !in {None, Some(Caller(s, req.slug))}
  }

  /** The id of the answer is now the caller's, the one that the caller came with is gone if it was
      another, and no other session changed hands. */
  ghost predicate Pins(req: Request, s: Subject, issued: Option<string>, before: Sessions.Entries,
                       after: Sessions.Entries) {
    if issued.None? then SameOwners(before, after, req.now, {})
    else
      && SameOwners(before, after, req.now, Ids(req.session) + Ids(issued))
      && Sessions.OwnerAt(after, req.now, issued.value) == Some(Caller(s, req.slug))
      && (Present(req.session) && req.session != issued ==> Sessions.OwnerAt(after, req.now, req.session.value) == None)
  }

  /** The status with which the session step ends the request, if it does. */
  ghost function PersistError(req: Request, s: Subject, reply: Reply, before: Sessions.Entries, up: bool): Option<int> {
    if IssuedId(reply).None? then None
    else if !up then Some(500)
    else if Conflicts(req, s, reply, before, up) then Some(409)
    else None
  }

  ghost predicate Persisted(req: Request, s: Subject, reply: Reply, before: Sessions.Entries, after: Sessions.Entries,
                            up: bool) {
    if PersistError(req, s, reply, before, up).Some? then SameOwners(before, after, req.now, {})
    else Pins(req, s, IssuedId(reply), before, after)
  }

  /** What comes back of an answer: an error of the session step or of list filtering, or the answer
      with its status and its session id, streamed exactly when either side streams. */
  ghost predicate Answers(w: World, req: Request, rpc: Rpc, s: Subject, reply: Reply, before: Sessions.Entries,
                          up: bool,
                          response: Response) {
    match PersistError(req, s, reply, before, up)
    case Some(status) => response == Error(status)
    case None =>
      if reply.eventStream || req.acceptsStream then response == Streamed(reply.status, IssuedId(reply))
      else if !rpc.op.IsList() || reply.body.None? then response == Relayed(reply.status, IssuedId(reply))
      else if FilterStage in w.failing then response == Error(500)
      else if response.Listed? then response == Listed(reply.status, IssuedId(reply), response.body)
      else response == Error(500) && !Filterable(reply.body.value, rpc.op)
  }

  /** Filtering raises on no list of known shape, and not when the list is missing. */
  ghost predicate Filterable(body: Json, op: Method) {
    KnownShape(body, op.ListKey(), op.NameKey()) || (body.Obj? && !HasList(body, op.ListKey()))
  }

  /** What comes back of a forwarded call, and what becomes of the sessions. */
  ghost predicate Responds(w: World, req: Request, rpc: Rpc, s: Subject, before: Sessions.Entries,
                           after: Sessions.Entries,
                           up: bool, response: Response) {
    if !Delivered(w, req, rpc) then
      && SameOwners(before, after, req.now, {})
      && response == (if ForwardStage in w.failing then Error(500) else if w.upstream.None? then Error(502)
                      else if rpc.id.None? then NoContent(EchoedUnpinned(req, w.upstream.value))
                      else if !w.upstream.value.declaredTooLarge && ReadStage in w.failing then Error(500)
                      else Error(502))
    else
      && Persisted(req, s, w.upstream.value, before, after, up)
      && Answers(w, req, rpc, s, w.upstream.value, before, up, response)
  }

  /** A list that comes back as a list holds what the caller may see; an answer to a list request
      is relayed as it came only if it is no JSON. */
  ghost predicate Presents(w: World, req: Request, rpc: Rpc, s: Subject, response: Response) {
    && (response.Listed? ==>
          && rpc.op.IsList() && w.upstream.Some? && w.upstream.value.body.Some?
          && Shown(w.glob, req.slug, Rules(w, s), rpc.op.ListKey(), rpc.op.NameKey(),
                   w.upstream.value.body.value, response.body))
    && (rpc.op.IsList() && response.Relayed? ==> w.upstream.Some? && w.upstream.value.body == None)
  }

  /** A cleared termination ends the caller's session and no other, and relays the upstream's answer. */
  ghost predicate Terminates(w: World, req: Request, before: Sessions.Entries, after: Sessions.Entries,
                             response: Response) {
    && SameOwners(before, after, req.now, Ids(req.session))
    && (Present(req.session) ==> Sessions.OwnerAt(after, req.now, req.session.value) == None)
    && response == if ForwardStage in w.failing then Error(500) else if w.upstream.None? then Error(502)
                   else Relayed(w.upstream.value.status, None)
  }

  /** What a request leaves behind and answers: nobody else's session changes hands; a cleared request
      costs one step of the limiter and is answered from the upstream; any other changes no owner and
      is refused, or explained if it is a dry run that passed everything else. */
  ghost predicate Completes(w: World, req: Request, rpc: Rpc, s: Subject, server: Server, e: Sessions.Entries, up: bool,
                            store: RateLimiting.Store, after: Sessions.Entries, store': RateLimiting.Store,
                            response: Response)
    requires w.limits.Valid()
  {
    && Sessions.ActsFor(e, after, Caller(s, req.slug), req.now)
    && Presents(w, req, rpc, s, response)
    && store' in {store, RateStore(w, req, s, rpc.RateName(), store)}
    && (response.Explained? <==>
          && GatesPassed(w, req, rpc, s, server, e, up) && !rpc.op.Terminate?
          && RateAllows(w, req, s, rpc.RateName(), store) && req.dryRun)
    && if Cleared(w, req, rpc, s, server, e, up, store) then
         && store' == RateStore(w, req, s, rpc.RateName(), store)
         && if rpc.op.Terminate? then Terminates(w, req, e, after, response)
            else Responds(w, req, rpc, s, e, after, up, response)
       else SameOwners(e, after, req.now, {}) && (response.Error? || response.Explained?)
  }

  ghost predicate ValidOutcome(w: World, req: Request, rpc: Rpc, s: Subject, e: Sessions.Entries, up: bool,
                               store: RateLimiting.Store, after: Sessions.Entries, store': RateLimiting.Store,
                               response: Response)
    requires w.limits.Valid()
  {
    exists server ::
      OnlyReady(w, req, s, server) && Completes(w, req, rpc, s, server, e, up, store, after, store', response)
  }

  /** Extending the life of a session changes nothing about an answer. */
  lemma RespondsForOwners(w: World, req: Request, rpc: Rpc, s: Subject, e: Sessions.Entries, before: Sessions.Entries,
                          after: Sessions.Entries, up: bool, response: Response)
    requires SameOwners(e, before, req.now, {}) && Responds(w, req, rpc, s, before, after, up, response)
    ensures Responds(w, req, rpc, s, e, after, up, response)
  {
  }

  lemma RefusedCompletes(w: World, req: Request, rpc: Rpc, s: Subject, server: Server, e: Sessions.Entries, up: bool,
                         store: RateLimiting.Store, after: Sessions.Entries, store': RateLimiting.Store, status: int)
    requires w.limits.Valid() && !Cleared(w, req, rpc, s, server, e, up, store) && SameOwners(e, after, req.now, {})
    requires rpc.op.Terminate? || !RateAllows(w, req, s, rpc.RateName(), store) || !req.dryRun
    requires store' in {store, RateStore(w, req, s, rpc.RateName(), store)}
    ensures Completes(w, req, rpc, s, server, e, up, store, after, store', Error(status))
  {
  }

  /** A call that the limiter admitted and that stops there: a dry run, or a tool call over the cap. */
  lemma StoppedCompletes(w: World, req: Request, rpc: Rpc, s: Subject, server: Server, e: Sessions.Entries, up: bool,
                         store: RateLimiting.Store, after: Sessions.Entries, response: Response)
    requires w.limits.Valid() && GatesPassed(w, req, rpc, s, server, e, up) && !rpc.op.Terminate?
    requires RateAllows(w, req, s, rpc.RateName(), store) && !Cleared(w, req, rpc, s, server, e, up, store)
    requires SameOwners(e, after, req.now, {}) && if req.dryRun then response.Explained? else response.Error?
    ensures Completes(w, req, rpc, s, server, e, up, store, after,
                      RateStore(w, req, s, rpc.RateName(), store), response)
  {
  }

  /** A termination past the gates is cleared when it names a session and the limiter admits it. */
  lemma TerminationCleared(w: World, req: Request, rpc: Rpc, s: Subject, server: Server, e: Sessions.Entries,
                           up: bool, store: RateLimiting.Store, before: Sessions.Entries)
    requires w.limits.Valid() && GatesPassed(w, req, rpc, s, server, e, up) && rpc.op.Terminate?
    requires SameOwners(e, before, req.now, {})
    ensures rpc.RateName() == Terminate.Name()
    ensures Cleared(w, req, rpc, s, server, e, up, store) <==>
      Present(req.session) && SessionOwned(req, s, before, up) && RateAllows(w, req, s, Terminate.Name(), store)
  {
  }

  lemma TerminationCompletes(w: World, req: Request, rpc: Rpc, s: Subject, server: Server, e: Sessions.Entries,
                             up: bool,
                             store: RateLimiting.Store, before: Sessions.Entries, after: Sessions.Entries,
                             response: Response)
    requires w.limits.Valid() && Cleared(w, req, rpc, s, server, e, up, store) && rpc.op.Terminate?
    requires SameOwners(e, before, req.now, {}) && Terminates(w, req, before, after, response)
    ensures Completes(w, req, rpc, s, server, e, up, store, after,
                      RateStore(w, req, s, rpc.RateName(), store), response)
  {
    assert Sessions.OwnerAt(e, req.now, req.session.value) == Some(Caller(s, req.slug));
  }

  lemma ForwardCompletes(w: World, req: Request, rpc: Rpc, s: Subject, server: Server, e: Sessions.Entries, up: bool,
                         store: RateLimiting.Store, before: Sessions.Entries, after: Sessions.Entries,
                         response: Response)
    requires w.limits.Valid() && Cleared(w, req, rpc, s, server, e, up, store) && !rpc.op.Terminate?
    requires SameOwners(e, before, req.now, {}) && Sessions.ActsFor(before, after, Caller(s, req.slug), req.now)
    requires Responds(w, req, rpc, s, before, after, up, response) && Presents(w, req, rpc, s, response)
    ensures Completes(w, req, rpc, s, server, e, up, store, after,
                      RateStore(w, req, s, rpc.RateName(), store), response)
  {
    RespondsForOwners(w, req, rpc, s, e, before, after, up, response);
  }

  lemma AttestedGrows(w: World, req: Request, rpc: Rpc, s: Subject, e: Sessions.Entries, up: bool,
                      store: RateLimiting.Store, trace: seq<Event>, event: Event)
    requires w.limits.Valid() && AllAttested(w, req, rpc, s, e, up, store, trace)
    requires Attested(w, req, rpc, s, e, up, store, event)
    ensures AllAttested(w, req, rpc, s, e, up, store, trace + [event])
  {
  }

  /** Past the gates and the rate limiter, but not forwarded. */
  lemma RateAdmittedFollows(w: World, req: Request, rpc: Rpc, s: Subject, server: Server, e: Sessions.Entries, up: bool,
                            store: RateLimiting.Store)
    requires w.limits.Valid() && AllAttested(w, req, rpc, s, e, up, store, Gates(s, server, req, rpc))
    requires ServerReady(w, req, s, server)
    requires RateAllows(w, req, s, rpc.RateName(), store) && !Cleared(w, req, rpc, s, server, e, up, store)
    ensures Follows(w, req, rpc, s, server, e, up, store, Gates(s, server, req, rpc) + [RateAdmitted(rpc.RateName())])
  {
    AttestedGrows(w, req, rpc, s, e, up, store, Gates(s, server, req, rpc), RateAdmitted(rpc.RateName()));
  }

  lemma ForwardedFollows(w: World, req: Request, rpc: Rpc, s: Subject, server: Server, e: Sessions.Entries, up: bool,
                         store: RateLimiting.Store)
    requires w.limits.Valid() && AllAttested(w, req, rpc, s, e, up, store, Gates(s, server, req, rpc))
    requires Cleared(w, req, rpc, s, server, e, up, store)
    ensures Follows(w, req, rpc, s, server, e, up, store, Path(s, server, req, rpc))
  {
    var gates, rate, last := Gates(s, server, req, rpc), RateAdmitted(rpc.RateName()), Forwarded(server.url);
    AttestedGrows(w, req, rpc, s, e, up, store, gates, rate);
    AttestedGrows(w, req, rpc, s, e, up, store, gates + [rate], last);
    assert gates + [rate] + [last] == gates + [rate, last];
  }

  // ----- the pipeline -------------------------------------------------------------------------

  class AuthContext {
    const w: World
    const req: Request
    const sessions: Sessions.SessionStore
    const limiter: RateLimiting.RateLimiter
    var subject: Option<Subject>
    var server: Option<Server>
    var trace: seq<Event>

    constructor (w: World, req: Request, sessions: Sessions.SessionStore, limiter: RateLimiting.RateLimiter)
      ensures this.w == w && this.req == req && this.sessions == sessions && this.limiter == limiter
      ensures subject == None && server == None && trace == []
    {
      this.w, this.req, this.sessions, this.limiter := w, req, sessions, limiter;
      subject, server, trace := None, None, [];
    }

    method RunPreAuthChecks() returns (error: Option<int>)
      requires subject == None
      modifies this`subject, this`trace
      ensures subject == Identity(w, req)
      ensures error.None? <==> subject.Some?
      ensures error == Some(503) <==> w.preAuth.None?
      ensures error == Some(429) <==> w.preAuth == Some(false)
      ensures error == Some(401) <==>
        w.preAuth == Some(true) && (req.token == "" || (AuthStage !in w.failing && w.authenticate(req.token).None?))
      ensures trace == if subject.Some? then old(trace) + [Authenticated(subject.value)] else old(trace)
    {
      if w.preAuth.None? {
        return Some(503);
      }
      if !w.preAuth.value {
        return Some(429);
      }
      if req.token == "" {
        return Some(401);
      }
      if AuthStage in w.failing {
        return Some(500);
      }
      subject := w.authenticate(req.token);
      if subject.None? {
        return Some(401);
      }
      trace := trace + [Authenticated(subject.value)];
      return None;
    }

    method ResolveServer() returns (error: Option<int>)
      modifies this`server, this`trace
      ensures error.None? <==> subject.Some? && server.Some? && ServerReady(w, req, subject.value, server.value)
      ensures subject.Some? && ServerStage !in w.failing ==>
        var found := w.servers(subject.value.tenant, req.slug);
        && (error == Some(404) <==> found.None?)
        && (error == Some(502) <==> found.Some? && !w.urlAllowed(found.value.url))
        && (error == Some(503) <==> found.Some? && w.urlAllowed(found.value.url) && found.value.status != Active)
      ensures trace == if error.None? then old(trace) + [Resolved(server.value)] else old(trace)
      ensures subject.Some? ==> forall sv :: ServerReady(w, req, subject.value, sv) ==> server == Some(sv)
    {
      if subject.None? || ServerStage in w.failing {
        return Some(500);
      }
      server := w.servers(subject.value.tenant, req.slug);
      if server.None? {
        return Some(404);
      }
      if !w.urlAllowed(server.value.url) {
        return Some(502);
      }
      if server.value.status in {Disabled, Unhealthy} {
        return Some(503);
      }
      trace := trace + [Resolved(server.value)];
      return None;
    }

    /** Looking a session up extends its life but moves no ownership. */
    method ValidateSession() returns (error: Option<int>)
      requires subject.Some? && sessions.Valid()
      modifies this`trace, sessions`entries
      ensures error.None? <==> SessionOwned(req, subject.value, old(sessions.entries), sessions.up)
      ensures error == Some(400) <==> Present(req.session) && !Sessions.ValidId(req.session.value)
      ensures error == Some(404) <==>
        && Present(req.session) && Sessions.ValidId(req.session.value)
        && (!sessions.up || Sessions.OwnerAt(old(sessions.entries), req.now, req.session.value) == None)
      ensures error == Some(403) <==>
        && Present(req.session) && Sessions.ValidId(req.session.value) && sessions.up
        && Sessions.OwnerAt(old(sessions.entries), req.now, req.session.value)
             !in {None, Some(Caller(subject.value, req.slug))}
      ensures trace == if error.None? then old(trace) + [SessionChecked(req.session)] else old(trace)
      ensures SameOwners(old(sessions.entries), sessions.entries, req.now, {})
    {
      if Present(req.session) {
        if !Sessions.ValidId(req.session.value) {
          return Some(400);
        }
        var record := sessions.Lookup(req.session.value, req.now);
        if record.None? {
          return Some(404);
        }
        if record != Some(Caller(subject.value, req.slug)) {
          return Some(403);
        }
      }
      trace := trace + [SessionChecked(req.session)];
      return None;
    }

    method Authorize(rpc: Rpc) returns (error: Option<int>)
      requires subject.Some?
      modifies this`trace
      ensures error.None? <==> (rpc.op.NeedsPermission() ==> ResourceAllowed(w, req, subject.value, rpc))
      ensures error.None? && rpc.op.NeedsPermission() ==> ResourceName(rpc).Some?
      ensures error.None? && rpc.op.NeedsPermission() ==>
        Permissions.Permitted(w.glob, req.slug, ResourceName(rpc).value, Rules(w, subject.value))
      ensures error == Some(422) <==> rpc.op.NeedsPermission() && rpc.Resource().None?
      ensures error == Some(403) <==>
        && rpc.op.NeedsPermission() && rpc.Resource().Some? && PermissionStage !in w.failing
        && CallAllowed(w.glob, req.slug, rpc.Resource().value, Rules(w, subject.value)) == Some(false)
      ensures trace == if error.None? && rpc.op.NeedsPermission() then old(trace) + [Granted(ResourceName(rpc).value)]
                       else old(trace)
      ensures error.None? <==>
        (IsGuarded(rpc.op.Name()) ==> WireAllowed(w, req, subject.value, rpc.op.Name(), rpc.params))
      ensures error == Some(422) <==> IsGuarded(rpc.op.Name()) && AsksNothing(rpc.op.Name(), rpc.params)
      ensures error == Some(403) <==>
        && IsGuarded(rpc.op.Name()) && !AsksNothing(rpc.op.Name(), rpc.params) && PermissionStage !in w.failing
        && WireDenied(w, req, subject.value, rpc.op.Name(), rpc.params)
      ensures trace == if error.None? && IsGuarded(rpc.op.Name())
                       then old(trace) + [Granted(Asked(rpc.op.Name(), rpc.params).value)] else old(trace)
    {
      GuardedNames(rpc.op);
      AllowedOnWire(w, req, subject.value, rpc);
      if !rpc.op.NeedsPermission() {
        return None;
      }
      var resource := rpc.Resource();
      if resource.None? {
        return Some(422);
      }
      DeniedOnWire(w, req, subject.value, rpc);
      if PermissionStage in w.failing {
        return Some(500);
      }
      var decision := CallAllowed(w.glob, req.slug, resource.value, Rules(w, subject.value));
      if decision.None? {
        return Some(500);
      }
      if resource.value.Str? {
        Permissions.EvaluateIsPermitted(w.glob, req.slug, resource.value.s, Rules(w, subject.value));
      }
      if !decision.value {
        return Some(403);
      }
      trace := trace + [Granted(resource.value.s)];
      return None;
    }

    method CheckRateLimit(tool: string) returns (error: Option<int>)
      requires w.limits.Valid()
      modifies this`trace, limiter
      ensures error.None? <==> subject.Some? && RateAllows(w, req, subject.value, tool, old(limiter.store))
      ensures subject.Some? && PolicyStage !in w.failing ==>
        var verdict := RateVerdict(w, req, subject.value, tool, old(limiter.store));
        && (error == Some(429) <==> LimiterStage !in w.failing && verdict == RateLimiting.Denied)
        && (error == Some(503) <==> LimiterStage in w.failing || verdict == RateLimiting.WrongType)
      ensures trace == if error.None? then old(trace) + [RateAdmitted(tool)] else old(trace)
      ensures limiter.store == if subject.Some? && LimiterReached(w)
                               then RateStore(w, req, subject.value, tool, old(limiter.store)) else old(limiter.store)
    {
      if subject.None? || PolicyStage in w.failing {
        return Some(500);
      }
      if LimiterStage in w.failing {
        return Some(503);
      }
      var result := limiter.Check(w.limits, RateRequest(req, subject.value, tool));
      if result.None? {
        return Some(503);
      }
      if !result.value.allowed {
        return Some(429);
      }
      trace := trace + [RateAdmitted(tool)];
      return None;
    }

    /** Termination: ownership once more, then the limiter, then the registry, then the upstream. */
    method TerminateSession() returns (response: Response)
      requires subject.Some? && server.Some? && sessions.Valid() && w.limits.Valid()
      modifies this`trace, sessions`entries, limiter
      ensures !response.Listed?
      ensures
        var s, tool := subject.value, Terminate.Name();
        var held := Present(req.session) && SessionOwned(req, s, old(sessions.entries), sessions.up);
        && (!held ==> trace == old(trace) && limiter.store == old(limiter.store) && response.Error?)
        && (held && !RateAllows(w, req, s, tool, old(limiter.store)) ==> trace == old(trace) && response.Error?)
        && (held && RateAllows(w, req, s, tool, old(limiter.store)) ==>
              && trace == old(trace) + [RateAdmitted(tool), Forwarded(server.value.url)]
              && limiter.store == RateStore(w, req, s, tool, old(limiter.store))
              && Terminates(w, req, old(sessions.entries), sessions.entries, response))
        && (!(held && RateAllows(w, req, s, tool, old(limiter.store))) ==>
              SameOwners(old(sessions.entries), sessions.entries, req.now, {}))
      ensures Sessions.ActsFor(old(sessions.entries), sessions.entries, Caller(subject.value, req.slug), req.now)
      ensures limiter.store in
        {old(limiter.store), RateStore(w, req, subject.value, Terminate.Name(), old(limiter.store))}
    {
      if !Present(req.session) || !Sessions.ValidId(req.session.value) {
        return Error(400);
      }
      var record := sessions.Lookup(req.session.value, req.now);
      if record.None? {
        return Error(404);
      }
      if record != Some(Caller(subject.value, req.slug)) {
        return Error(403);
      }
      var error := CheckRateLimit(Terminate.Name());
      if error.Some? {
        return Error(error.value);
      }
      sessions.Delete(req.session.value);
      trace := trace + [Forwarded(server.value.url)];
      if ForwardStage in w.failing {
        return Error(500);
      }
      if w.upstream.None? {
        return Error(502);
      }
      return Relayed(w.upstream.value.status, None);
    }

    /** Pin the session that the upstream issued to the caller. A session of somebody else stays
        untouched, and the response is a conflict. */
    method PersistSession(reply: Reply) returns (error: Option<int>, echoed: Option<string>)
      requires subject.Some? && sessions.Valid() && SessionOwned(req, subject.value, sessions.entries, sessions.up)
      modifies sessions`entries
      ensures Sessions.ActsFor(old(sessions.entries), sessions.entries, Caller(subject.value, req.slug), req.now)
      ensures error == PersistError(req, subject.value, reply, old(sessions.entries), sessions.up)
      ensures echoed == if error.None? then IssuedId(reply) else None
      ensures Persisted(req, subject.value, reply, old(sessions.entries), sessions.entries, sessions.up)
    {
      var issued := reply.session;
      if !Present(issued) || !Sessions.ValidId(issued.value) {
        return None, None;
      }
      var caller := Caller(subject.value, req.slug);
      var existing := sessions.Lookup(issued.value, req.now);
      if existing.Some? && existing != Some(caller) {
        return Some(409), None;
      }
      if Present(req.session) && req.session != issued {
        sessions.Delete(req.session.value);
      }
      var raised := sessions.Record(issued.value, caller, req.now);
      if raised {
        return Some(500), None;
      }
      return None, issued;
    }

    method Forward(rpc: Rpc) returns (response: Response)
      requires subject.Some? && server.Some? && sessions.Valid()
      requires SessionOwned(req, subject.value, sessions.entries, sessions.up)
      modifies this`trace, sessions`entries
      ensures trace == old(trace) + [Forwarded(server.value.url)]
      ensures Sessions.ActsFor(old(sessions.entries), sessions.entries, Caller(subject.value, req.slug), req.now)
      ensures Presents(w, req, rpc, subject.value, response)
      ensures Responds(w, req, rpc, subject.value, old(sessions.entries), sessions.entries, sessions.up, response)
    {
      trace := trace + [Forwarded(server.value.url)];
      if ForwardStage in w.failing {
        return Error(500);
      }
      if w.upstream.None? {
        return Error(502);
      }
      if rpc.id.None? {
        return NoContent(EchoedUnpinned(req, w.upstream.value));
      }
      if !req.acceptsStream {
        if w.upstream.value.declaredTooLarge {
          return Error(502);
        }
        if ReadStage in w.failing {
          return Error(500);
        }
        if w.upstream.value.tooLarge {
          return Error(502);
        }
      }
      response := Respond(rpc);
    }

    /** The session, then the stream, the filtered list, or the answer as it is. */
    method Respond(rpc: Rpc) returns (response: Response)
      requires subject.Some? && sessions.Valid() && w.upstream.Some?
      requires SessionOwned(req, subject.value, sessions.entries, sessions.up)
      modifies sessions`entries
      ensures Sessions.ActsFor(old(sessions.entries), sessions.entries, Caller(subject.value, req.slug), req.now)
      ensures Presents(w, req, rpc, subject.value, response)
      ensures Persisted(req, subject.value, w.upstream.value, old(sessions.entries), sessions.entries, sessions.up)
      ensures Answers(w, req, rpc, subject.value, w.upstream.value, old(sessions.entries), sessions.up, response)
    {
      var reply := w.upstream.value;
      var error, echoed := PersistSession(reply);
      if error.Some? {
        return Error(error.value);
      }
      if reply.eventStream || req.acceptsStream {
        return Streamed(reply.status, echoed);
      }
      if rpc.op.IsList() {
        if reply.body.None? {
          return Relayed(reply.status, echoed);
        }
        if FilterStage in w.failing {
          return Error(500);
        }
        var filtered := FilterGenericList(w.glob, w.tables, subject.value, req.slug, rpc.op.ListKey(),
                                          rpc.op.NameKey(), reply.body.value);
        if filtered.None? {
          return Error(500);
        }
        return Listed(reply.status, echoed, filtered.value);
      }
      return Relayed(reply.status, echoed);
    }

    /** Steps 2 to 4: who calls, which server, whose session, which resource. */
    method PassGates(rpc: Rpc) returns (error: Option<int>)
      requires subject == None && server == None && trace == [] && sessions.Valid() && w.limits.Valid()
      modifies this, sessions`entries
      ensures subject == Identity(w, req)
      ensures subject.None? ==> error.Some? && trace == [] && sessions.entries == old(sessions.entries)
      ensures SameOwners(old(sessions.entries), sessions.entries, req.now, {})
      ensures error.None? ==>
        && subject.Some? && server.Some?
        && GatesPassed(w, req, rpc, subject.value, server.value, old(sessions.entries), sessions.up)
        && trace == Gates(subject.value, server.value, req, rpc)
        && AllAttested(w, req, rpc, subject.value, old(sessions.entries), sessions.up, limiter.store, trace)
      ensures error.Some? && subject.Some? ==>
        exists sv :: !GatesPassed(w, req, rpc, subject.value, sv, old(sessions.entries), sessions.up)
          && Halted(w, req, rpc, subject.value, sv, old(sessions.entries), sessions.up, limiter.store, trace)
    {
      ghost var e, store := sessions.entries, limiter.store;
      error := RunPreAuthChecks();
      if error.Some? {
        return;
      }
      var s := subject.value;
      assert trace == [Authenticated(s)] && AllAttested(w, req, rpc, s, e, sessions.up, store, trace);
      error := ResolveServer();
      if error.Some? {
        assert !GatesPassed(w, req, rpc, s, Server("", Disabled), e, sessions.up);
        assert Halted(w, req, rpc, s, Server("", Disabled), e, sessions.up, store, trace);
        return;
      }
      AttestedGrows(w, req, rpc, s, e, sessions.up, store, [Authenticated(s)], Resolved(server.value));
      assert trace == [Authenticated(s), Resolved(server.value)];
      error := ValidateSession();
      if error.Some? {
        assert !GatesPassed(w, req, rpc, s, server.value, e, sessions.up);
        assert Halted(w, req, rpc, s, server.value, e, sessions.up, store, trace);
        return;
      }
      AttestedGrows(w, req, rpc, s, e, sessions.up, store, [Authenticated(s), Resolved(server.value)],
                    SessionChecked(req.session));
      assert trace == [Authenticated(s), Resolved(server.value), SessionChecked(req.session)];
      error := AuthorizeLast(rpc, e, store);
      if error.Some? {
        assert !GatesPassed(w, req, rpc, s, server.value, e, sessions.up);
        assert Halted(w, req, rpc, s, server.value, e, sessions.up, store, trace);
      }
    }

    /** The last gate, on a trace that holds the others. */
    method AuthorizeLast(rpc: Rpc, ghost e: Sessions.Entries, ghost store: RateLimiting.Store)
      returns (error: Option<int>)
      requires subject.Some? && server.Some? && w.limits.Valid()
      requires trace == [Authenticated(subject.value), Resolved(server.value), SessionChecked(req.session)]
      requires AllAttested(w, req, rpc, subject.value, e, sessions.up, store, trace)
      modifies this`trace
      ensures AllAttested(w, req, rpc, subject.value, e, sessions.up, store, trace)
      ensures trace <= Gates(subject.value, server.value, req, rpc)
      ensures error.None? ==> trace == Gates(subject.value, server.value, req, rpc)
      ensures error.None? <==> (rpc.op.NeedsPermission() ==> ResourceAllowed(w, req, subject.value, rpc))
    {
      ghost var before := trace;
      error := Authorize(rpc);
      if error.None? && rpc.op.NeedsPermission() {
        AttestedGrows(w, req, rpc, subject.value, e, sessions.up, store, before, Granted(ResourceName(rpc).value));
      }
    }

    method CheckUsageCap(rpc: Rpc) returns (error: Option<int>)
      requires subject.Some?
      ensures error.None? <==> (rpc.op.ToolsCall? ==> CapStage !in w.failing && w.underCap(subject.value.tenant))
    {
      if rpc.op.ToolsCall? {
        if CapStage in w.failing {
          return Some(500);
        }
        if !w.underCap(subject.value.tenant) {
          return Some(402);
        }
      }
      return None;
    }

    /** Steps 5 to 9, for everything but a termination. */
    method LimitAndForward(rpc: Rpc, ghost e: Sessions.Entries, ghost store: RateLimiting.Store)
      returns (response: Response)
      requires subject.Some? && server.Some? && sessions.Valid() && w.limits.Valid() && !rpc.op.Terminate?
      requires GatesPassed(w, req, rpc, subject.value, server.value, e, sessions.up)
      requires trace == Gates(subject.value, server.value, req, rpc) && limiter.store == store
      requires AllAttested(w, req, rpc, subject.value, e, sessions.up, store, trace)
      requires SameOwners(e, sessions.entries, req.now, {})
      modifies this`trace, sessions`entries, limiter
      ensures Follows(w, req, rpc, subject.value, server.value, e, sessions.up, store, trace)
      ensures Completes(w, req, rpc, subject.value, server.value, e, sessions.up, store,
                        sessions.entries, limiter.store, response)
    {
      var error := CheckRateLimit(rpc.RateName());
      if error.Some? {
        HaltedFollows(w, req, rpc, subject.value, server.value, e, sessions.up, store, trace);
        return Error(error.value);
      }
      response := ForwardAdmitted(rpc, e, store);
    }

    /** Steps 5b to 9: the rate limiter has admitted the call. */
    method ForwardAdmitted(rpc: Rpc, ghost e: Sessions.Entries, ghost store: RateLimiting.Store)
      returns (response: Response)
      requires subject.Some? && server.Some? && sessions.Valid() && w.limits.Valid() && !rpc.op.Terminate?
      requires GatesPassed(w, req, rpc, subject.value, server.value, e, sessions.up)
      requires RateAllows(w, req, subject.value, rpc.RateName(), store)
      requires trace == Gates(subject.value, server.value, req, rpc) + [RateAdmitted(rpc.RateName())]
      requires AllAttested(w, req, rpc, subject.value, e, sessions.up, store,
                           Gates(subject.value, server.value, req, rpc))
      requires SameOwners(e, sessions.entries, req.now, {})
      modifies this`trace, sessions`entries
      ensures Follows(w, req, rpc, subject.value, server.value, e, sessions.up, store, trace)
      ensures Completes(w, req, rpc, subject.value, server.value, e, sessions.up, store, sessions.entries,
                        RateStore(w, req, subject.value, rpc.RateName(), store), response)
    {
      var s, target := subject.value, server.value;
      ghost var before, up := sessions.entries, sessions.up;
      if req.dryRun {
        RateAdmittedFollows(w, req, rpc, s, target, e, up, store);
        StoppedCompletes(w, req, rpc, s, target, e, up, store, before, Explained);
        return Explained;
      }
      var error := CheckUsageCap(rpc);
      if error.Some? {
        RateAdmittedFollows(w, req, rpc, s, target, e, up, store);
        StoppedCompletes(w, req, rpc, s, target, e, up, store, before, Error(error.value));
        return Error(error.value);
      }
      response := ForwardCleared(rpc, e, store);
    }

    /** Steps 6 to 9: nothing stands in the way. */
    method ForwardCleared(rpc: Rpc, ghost e: Sessions.Entries, ghost store: RateLimiting.Store)
      returns (response: Response)
      requires subject.Some? && server.Some? && sessions.Valid() && w.limits.Valid() && !rpc.op.Terminate?
      requires Cleared(w, req, rpc, subject.value, server.value, e, sessions.up, store)
      requires trace == Gates(subject.value, server.value, req, rpc) + [RateAdmitted(rpc.RateName())]
      requires AllAttested(w, req, rpc, subject.value, e, sessions.up, store,
                           Gates(subject.value, server.value, req, rpc))
      requires SameOwners(e, sessions.entries, req.now, {})
      modifies this`trace, sessions`entries
      ensures Follows(w, req, rpc, subject.value, server.value, e, sessions.up, store, trace)
      ensures Completes(w, req, rpc, subject.value, server.value, e, sessions.up, store, sessions.entries,
                        RateStore(w, req, subject.value, rpc.RateName(), store), response)
    {
      ghost var s, target, before, up := subject.value, server.value, sessions.entries, sessions.up;
      response := Forward(rpc);
      ForwardCompletes(w, req, rpc, s, target, e, up, store, before, sessions.entries, response);
      ForwardedFollows(w, req, rpc, s, target, e, up, store);
    }

    /** Step 4b, on a trace that holds the gates. */
    method Terminated(rpc: Rpc, ghost e: Sessions.Entries, ghost store: RateLimiting.Store) returns (response: Response)
      requires subject.Some? && server.Some? && sessions.Valid() && w.limits.Valid() && rpc.op.Terminate?
      requires GatesPassed(w, req, rpc, subject.value, server.value, e, sessions.up)
      requires trace == Gates(subject.value, server.value, req, rpc) && limiter.store == store
      requires AllAttested(w, req, rpc, subject.value, e, sessions.up, store, trace)
      requires SameOwners(e, sessions.entries, req.now, {})
      modifies this`trace, sessions`entries, limiter
      ensures Follows(w, req, rpc, subject.value, server.value, e, sessions.up, store, trace)
      ensures Completes(w, req, rpc, subject.value, server.value, e, sessions.up, store,
                        sessions.entries, limiter.store, response)
    {
      var s, target := subject.value, server.value;
      ghost var before := sessions.entries;
      TerminationCleared(w, req, rpc, s, target, e, sessions.up, store, before);
      response := TerminateSession();
      if Cleared(w, req, rpc, s, target, e, sessions.up, store) {
        ForwardedFollows(w, req, rpc, s, target, e, sessions.up, store);
        TerminationCompletes(w, req, rpc, s, target, e, sessions.up, store, before, sessions.entries, response);
      } else {
        HaltedFollows(w, req, rpc, s, target, e, sessions.up, store, trace);
        RefusedCompletes(w, req, rpc, s, target, e, sessions.up, store, sessions.entries, limiter.store,
                         response.status);
      }
    }

    /** The whole pipeline on a parsed request. */
    method Proxy(rpc: Rpc) returns (response: Response)
      requires subject == None && server == None && trace == [] && sessions.Valid() && w.limits.Valid()
      modifies this, sessions`entries, limiter
      ensures subject == Identity(w, req)
      ensures ValidTrace(w, req, rpc, old(sessions.entries), sessions.up, old(limiter.store), trace)
      ensures subject.None? ==>
        response.Error? && sessions.entries == old(sessions.entries) && limiter.store == old(limiter.store)
      ensures subject.Some? ==>
        ValidOutcome(w, req, rpc, subject.value, old(sessions.entries), sessions.up, old(limiter.store),
                     sessions.entries, limiter.store, response)
    {
      ghost var e, store, up := sessions.entries, limiter.store, sessions.up;
      var error := PassGates(rpc);
      if error.Some? {
        response := Error(error.value);
        if subject.Some? {
          ghost var sv :| !GatesPassed(w, req, rpc, subject.value, sv, e, up)
            && Halted(w, req, rpc, subject.value, sv, e, up, store, trace);
          HaltedFollows(w, req, rpc, subject.value, sv, e, up, store, trace);
          assert Completes(w, req, rpc, subject.value, sv, e, up, store, sessions.entries, limiter.store, response);
        }
        return;
      }
      if rpc.op.Terminate? {
        response := Terminated(rpc, e, store);
      } else {
        response := LimitAndForward(rpc, e, store);
      }
    }
  }

  /** Everything that one request of the endpoint does to the sessions and to the limiter, and what it
      answers and leaves on its trace. */
  ghost predicate Served(w: World, req: Request, e: Sessions.Entries, up: bool, store: RateLimiting.Store,
                         after: Sessions.Entries, store': RateLimiting.Store, response: Response, trace: seq<Event>)
    requires w.limits.Valid()
  {
    match Actor(w, req)
    case None => response.Error? && trace == [] && after == e && store' == store
    case Some(who) =>
      && ValidTrace(w, req, req.body.rpc, e, up, store, trace)
      && Sessions.ActsFor(e, after, who, req.now)
      && ValidOutcome(w, req, req.body.rpc, Identity(w, req).value, e, up, store, after, store', response)
  }

  /** Whose sessions a request may touch: nobody's without a readable body and an identity. */
  function Actor(w: World, req: Request): Option<Sessions.Owner> {
    if req.body.Parsed? && Identity(w, req).Some? then Some(Caller(Identity(w, req).value, req.slug)) else None
  }

  /** `mcp_proxy`: the body first, then the pipeline. */
  method McpProxy(w: World, req: Request, sessions: Sessions.SessionStore, limiter: RateLimiting.RateLimiter)
    returns (response: Response, trace: seq<Event>)
    requires sessions.Valid() && w.limits.Valid()
    modifies sessions`entries, limiter
    ensures Served(w, req, old(sessions.entries), sessions.up, old(limiter.store),
                   sessions.entries, limiter.store, response, trace)
    ensures req.body.Parsed? ==>
      ValidTrace(w, req, req.body.rpc, old(sessions.entries), sessions.up, old(limiter.store), trace)
  {
    match req.body {
      case TooLarge => return Error(413), [];
      case Unparsable(status) => return Error(status), [];
      case Parsed(rpc) =>
        var ctx := new AuthContext(w, req, sessions, limiter);
        response := ctx.Proxy(rpc);
        trace := ctx.trace;
    }
  }

  // ----- runs of requests ---------------------------------------------------------------------

  /** A request, the world it finds, and whether the session store answers during it. */
  datatype Arrival = Arrival(w: World, req: Request, up: bool)

  /** What one arrival found and left. */
  datatype Exchange = Exchange(e: Sessions.Entries, store: RateLimiting.Store, after: Sessions.Entries,
                               store': RateLimiting.Store, response: Response, trace: seq<Event>)

  ghost predicate Took(a: Arrival, x: Exchange) {
    && a.w.limits.Valid()
    && Served(a.w, a.req, x.e, a.up, x.store, x.after, x.store', x.response, x.trace)
  }

  /** The exchange served the arrival between two moments of the registry. */
  ghost predicate Recorded(a: Arrival, x: Exchange, before: Sessions.Moment, after: Sessions.Moment) {
    Took(a, x) && before.entries == x.e && after == MomentAfter(a, x)
  }

  /** Every exchange served its arrival, from the store that the one before it left. */
  ghost predicate AllRecorded(arrivals: seq<Arrival>, history: seq<Exchange>, run: seq<Sessions.Moment>)
    decreases |history|
  {
    var n := |history| - 1;
    && |history| <= |arrivals| && |run| == |history| + 1
    && (history != [] ==>
          && AllRecorded(arrivals, history[..n], run[..n + 1])
          && Recorded(arrivals[n], history[n], run[n], run[n + 1])
          && (n > 0 ==> history[n].store == history[n - 1].store'))
  }

  lemma {:induction false} RecordedAt(arrivals: seq<Arrival>, history: seq<Exchange>, run: seq<Sessions.Moment>, k: nat)
    requires AllRecorded(arrivals, history, run) && k < |history|
    ensures Recorded(arrivals[k], history[k], run[k], run[k + 1])
    ensures k > 0 ==> history[k].store == history[k - 1].store'
    decreases |history|
  {
    var n := |history| - 1;
    if k < n {
      RecordedAt(arrivals, history[..n], run[..n + 1], k);
    }
  }

  ghost predicate Answered(responses: seq<Response>, history: seq<Exchange>) {
    |responses| == |history| && forall k :: 0 <= k < |history| ==> responses[k] == history[k].response
  }

  /** What the registry is after an exchange, and whose doing that was. */
  function MomentAfter(a: Arrival, x: Exchange): Sessions.Moment {
    Sessions.Moment(x.after, Actor(a.w, a.req), a.req.now)
  }

  ghost predicate Chronological(arrivals: seq<Arrival>, start: real) {
    && (forall i :: 0 <= i < |arrivals| ==> start <= arrivals[i].req.now)
    && (forall i, j :: 0 <= i < j < |arrivals| ==> arrivals[i].req.now <= arrivals[j].req.now)
  }

  /** One more request extends a valid run of the registry. */
  lemma RunGrows(run: seq<Sessions.Moment>, a: Arrival, x: Exchange)
    requires Sessions.ValidRun(run) && run != [] && run[|run| - 1].entries == x.e && run[|run| - 1].now <= a.req.now
    requires Took(a, x)
    ensures Sessions.ValidRun(run + [MomentAfter(a, x)])
  {
    var run' := run + [MomentAfter(a, x)];
    forall k | 0 < k < |run'|
      ensures Sessions.Follows(run', k)
    {
      if k < |run| {
        assert Sessions.Follows(run, k);
      }
    }
  }

  lemma {:induction false} HistoryGrows(arrivals: seq<Arrival>, history: seq<Exchange>, run: seq<Sessions.Moment>,
                                        x: Exchange)
    requires AllRecorded(arrivals, history, run) && |history| < |arrivals| && Took(arrivals[|history|], x)
    requires run[|history|].entries == x.e && (history != [] ==> x.store == history[|history| - 1].store')
    ensures AllRecorded(arrivals, history + [x], run + [MomentAfter(arrivals[|history|], x)])
  {
    var n, m := |history|, MomentAfter(arrivals[|history|], x);
    assert (history + [x])[..n] == history && (run + [m])[..n + 1] == run;
  }

  /** The requests so far, and where they leave the registry and the limiter. */
  ghost predicate Progress(arrivals: seq<Arrival>, start: real, history: seq<Exchange>, run: seq<Sessions.Moment>,
                           entries: Sessions.Entries, store: RateLimiting.Store) {
    var n := |history|;
    && AllRecorded(arrivals, history, run) && Sessions.ValidRun(run)
    && run[n].entries == entries && (n > 0 ==> history[n - 1].store' == store)
    && run[n].now == if n == 0 then start else arrivals[n - 1].req.now
  }

  lemma {:induction false} ProgressGrows(arrivals: seq<Arrival>, start: real, history: seq<Exchange>,
                                         run: seq<Sessions.Moment>, x: Exchange)
    requires Chronological(arrivals, start) && |history| < |arrivals| && Took(arrivals[|history|], x)
    requires Progress(arrivals, start, history, run, x.e, x.store)
    ensures Progress(arrivals, start, history + [x], run + [MomentAfter(arrivals[|history|], x)], x.after, x.store')
  {
    RunGrows(run, arrivals[|history|], x);
    HistoryGrows(arrivals, history, run, x);
  }

  method Serve(a: Arrival, sessions: Sessions.SessionStore, limiter: RateLimiting.RateLimiter)
    returns (response: Response, ghost x: Exchange)
    requires sessions.Valid() && a.w.limits.Valid()
    modifies sessions, limiter
    ensures Took(a, x) && x.response == response
    ensures x.e == old(sessions.entries) && x.after == sessions.entries
    ensures x.store == old(limiter.store) && x.store' == limiter.store
  {
    sessions.up := a.up;
    ghost var e, store := sessions.entries, limiter.store;
    var trace;
    response, trace := McpProxy(a.w, a.req, sessions, limiter);
    x := Exchange(e, store, sessions.entries, limiter.store, response, trace);
  }

  /** Requests served one after the other on one session store and one limiter: what the registry goes
      through is a run in which ownership is stable. */
  method ServeAll(arrivals: seq<Arrival>, start: real, sessions: Sessions.SessionStore,
                  limiter: RateLimiting.RateLimiter)
    returns (responses: seq<Response>, ghost history: seq<Exchange>, ghost run: seq<Sessions.Moment>)
    requires sessions.Valid() && Chronological(arrivals, start)
    requires forall i :: 0 <= i < |arrivals| ==> arrivals[i].w.limits.Valid()
    modifies sessions, limiter
    ensures |history| == |arrivals| && Answered(responses, history) && AllRecorded(arrivals, history, run)
    ensures run[0].entries == old(sessions.entries) && run[|arrivals|].entries == sessions.entries
    ensures Sessions.ValidRun(run) && Sessions.Stable(run)
  {
    responses, history, run := [], [], [Sessions.Moment(sessions.entries, None, start)];
    var i := 0;
    while i < |arrivals|
      invariant 0 <= i <= |arrivals| && |history| == i
      invariant Answered(responses, history)
      invariant Progress(arrivals, start, history, run, sessions.entries, limiter.store)
      invariant run[0].entries == old(sessions.entries)
    {
      var response;
      ghost var x;
      response, x := Serve(arrivals[i], sessions, limiter);
      ProgressGrows(arrivals, start, history, run, x);
      responses, history, run := responses + [response], history + [x], run + [MomentAfter(arrivals[i], x)];
      i := i + 1;
    }
    Sessions.OwnershipIsStable(run);
  }

  // ----- what every trace keeps ---------------------------------------------------------------

  predicate Forwards(trace: seq<Event>) {
    exists i :: 0 <= i < |trace| && trace[i].Forwarded?
  }

  /** The methods that need a permission, by their names on the wire. */
  ghost predicate IsGuarded(name: string) {
    || name == "tools/call" || name == "resources/read" || name == "resources/subscribe"
    || name == "resources/unsubscribe" || name == "prompts/get" || name == "sampling/createMessage"
  }

  ghost function TextAt(params: map<string, Json>, key: string): Option<string> {
    if key in params && params[key].Str? then Some(params[key].s) else None
  }

  /** What a call with this method and these parameters asks for. */
  ghost function Asked(name: string, params: map<string, Json>): Option<string> {
    if params == map[] then None
    else if name == "tools/call" || name == "prompts/get" then TextAt(params, "name")
    else if name == "resources/read" || name == "resources/subscribe" || name == "resources/unsubscribe" then
      TextAt(params, "uri")
    else if name == "sampling/createMessage" then Some("createMessage")
    else None
  }

  /** A guarded call that names nothing: no parameters, or its own one missing or null. */
  ghost predicate AsksNothing(name: string, params: map<string, Json>) {
    || params == map[]
    || (name != "sampling/createMessage" &&
        var key := if name == "tools/call" || name == "prompts/get" then "name" else "uri";
        key !in params || params[key] == Null)
  }

  /** The rules of the caller permit what the call asks for. */
  ghost predicate WireAllowed(w: World, req: Request, s: Subject, name: string, params: map<string, Json>) {
    && PermissionStage !in w.failing && Asked(name, params).Some?
    && Permissions.Permitted(w.glob, req.slug, Asked(name, params).value,
                             RbacRepositories.PermissionsForSubject(w.tables, s.tenant, s.kind, s.id))
  }

  /** The rules do not permit what the call asks for; a name that is no text is denied while no rule gets
      as far as matching it. */
  ghost predicate WireDenied(w: World, req: Request, s: Subject, name: string, params: map<string, Json>) {
    var rules := RbacRepositories.PermissionsForSubject(w.tables, s.tenant, s.kind, s.id);
    match Asked(name, params)
    case Some(resource) => !Permissions.Permitted(w.glob, req.slug, resource, rules)
    case None => forall rule :: rule in rules ==> !w.glob(req.slug, rule.serverPattern)
  }

  /** The gate goes by what stands on the wire. */
  lemma {:induction false} AllowedOnWire(w: World, req: Request, s: Subject, rpc: Rpc)
    ensures Asked(rpc.op.Name(), rpc.params) == ResourceName(rpc)
    ensures rpc.op.NeedsPermission() ==>
      && (ResourceAllowed(w, req, s, rpc) <==> WireAllowed(w, req, s, rpc.op.Name(), rpc.params))
      && (rpc.Resource().None? <==> AsksNothing(rpc.op.Name(), rpc.params))
  {
    AskedIsResource(rpc);
    if rpc.op.NeedsPermission() {
      ResourceOnWire(rpc);
      if ResourceName(rpc).Some? {
        Permissions.EvaluateIsPermitted(w.glob, req.slug, ResourceName(rpc).value, Rules(w, s));
      }
    }
  }

  lemma {:induction false} DeniedOnWire(w: World, req: Request, s: Subject, rpc: Rpc)
    requires rpc.op.NeedsPermission() && rpc.Resource().Some?
    ensures CallAllowed(w.glob, req.slug, rpc.Resource().value, Rules(w, s)) == Some(false) <==>
            WireDenied(w, req, s, rpc.op.Name(), rpc.params)
  {
    AskedIsResource(rpc);
    if ResourceName(rpc).Some? {
      Permissions.EvaluateIsPermitted(w.glob, req.slug, ResourceName(rpc).value, Rules(w, s));
    }
  }

  lemma ResourceOnWire(rpc: Rpc)
    requires rpc.op.NeedsPermission()
    ensures rpc.Resource().None? <==> AsksNothing(rpc.op.Name(), rpc.params)
  {
  }

  /** The name under which the call counts against its limit. */
  ghost function CountedAs(name: string, params: map<string, Json>): string {
    match Asked(name, params)
    case Some(resource) => if resource == "" then name else resource
    case None => name
  }

  /** The method that a name on the wire stands for. */
  ghost function MethodNamed(name: string): Option<Method> {
    if name == "initialize" then Some(Initialize)
    else if name == "notifications/initialized" then Some(Initialized)
    else if name == "ping" then Some(Ping)
    else if name == "tools/list" then Some(ToolsList)
    else if name == "tools/call" then Some(ToolsCall)
    else if name == "resources/list" then Some(ResourcesList)
    else if name == "resources/read" then Some(ResourcesRead)
    else if name == "resources/subscribe" then Some(ResourcesSubscribe)
    else if name == "resources/unsubscribe" then Some(ResourcesUnsubscribe)
    else if name == "prompts/list" then Some(PromptsList)
    else if name == "prompts/get" then Some(PromptsGet)
    else if name == "sampling/createMessage" then Some(CreateMessage)
    else if name == "roots/list" then Some(RootsList)
    else if name == "session/terminate" then Some(Terminate)
    else None
  }

  lemma {:induction false} NamesRoundTrip(op: Method)
    ensures MethodNamed(op.Name()) == Some(op)
  {
    assert "tools/call"[6] == 'c' && "tools/list"[6] == 'l' && "tools/list"[0] == 't' && "initialize"[0] == 'i';
    assert "resources/list"[10] == 'l' && "resources/read"[10] == 'r' && "roots/list"[0] == 'r';
  }

  lemma GuardedNames(op: Method)
    ensures IsGuarded(op.Name()) <==> op.NeedsPermission()
  {
    assert "initialize"[0] == 'i' && "notifications/initialized"[0] == 'n' && "roots/list"[1] == 'o';
    assert |"ping"| == 4 && |"session/terminate"| == 17 && |"sampling/createMessage"| == 22;
  }

  lemma {:induction false} AskedIsResource(rpc: Rpc)
    ensures Asked(rpc.op.Name(), rpc.params) == ResourceName(rpc)
    ensures CountedAs(rpc.op.Name(), rpc.params) == rpc.RateName()
  {
    GuardedNames(rpc.op);
  }

  ghost predicate OneAdmission(before: seq<Event>) {
    forall i, j :: 0 <= i < j < |before| ==> !(before[i].RateAdmitted? && before[j].RateAdmitted?)
  }

  /** Every check was made earlier on the trace: for this caller, server, session and resource, and
      the rate limiter once. */
  ghost predicate ChecksMade(req: Request, name: string, params: map<string, Json>, s: Subject, server: Server,
                             before: seq<Event>) {
    && Authenticated(s) in before && Resolved(server) in before && SessionChecked(req.session) in before
    && (IsGuarded(name) ==> Asked(name, params).Some? && Granted(Asked(name, params).value) in before)
    && RateAdmitted(CountedAs(name, params)) in before && OneAdmission(before)
  }

  /** The gates, by what stands on the wire. */
  ghost predicate GatesHold(w: World, req: Request, name: string, params: map<string, Json>, s: Subject,
                            server: Server, e: Sessions.Entries) {
    && w.preAuth == Some(true) && req.token != "" && w.authenticate(req.token) == Some(s)
    && w.servers(s.tenant, req.slug) == Some(server) && server.status == Active && w.urlAllowed(server.url)
    && (req.session.Some? && req.session.value != "" ==>
          Sessions.OwnerAt(e, req.now, req.session.value) == Some(Sessions.Owner(s.tenant, s.id, req.slug)))
    && (IsGuarded(name) ==> WireAllowed(w, req, s, name, params))
  }

  /** And every check holds of the world that the request found. */
  ghost predicate ChecksHold(w: World, req: Request, name: string, params: map<string, Json>, s: Subject,
                             server: Server, e: Sessions.Entries, store: RateLimiting.Store)
    requires w.limits.Valid()
  {
    && GatesHold(w, req, name, params, s, server, e)
    && LimiterAdmits(w, store, RateLimiting.Request(s.tenant, s.id, s.kind, req.slug, CountedAs(name, params),
                                                    req.now, req.member))
  }

  /** A forward to this address, after these events, is safe for this caller and this server. */
  ghost predicate Safe(w: World, req: Request, name: string, params: map<string, Json>, s: Subject, server: Server,
                       e: Sessions.Entries, store: RateLimiting.Store, before: seq<Event>, url: string)
    requires w.limits.Valid()
  {
    && url == server.url && ChecksMade(req, name, params, s, server, before)
    && ChecksHold(w, req, name, params, s, server, e, store)
  }

  ghost predicate LimiterAdmits(w: World, store: RateLimiting.Store, r: RateLimiting.Request)
    requires w.limits.Valid()
  {
    RateLimiting.PlansAreValid(w.limits, r);
    RateLimiting.Step(w.limits, store, r).1 == RateLimiting.Allowed
  }

  /** A trace on a path forwards only at the end of it, so only when it is cleared. */
  lemma ForwardIsLast(w: World, req: Request, rpc: Rpc, s: Subject, server: Server, e: Sessions.Entries, up: bool,
                      store: RateLimiting.Store, trace: seq<Event>)
    requires w.limits.Valid() && Follows(w, req, rpc, s, server, e, up, store, trace)
    ensures Forwards(trace) <==> trace == Path(s, server, req, rpc)
    ensures forall i :: 0 <= i < |trace| && trace[i].Forwarded? ==> i == |trace| - 1
  {
    var gates, path := Gates(s, server, req, rpc), Path(s, server, req, rpc);
    assert forall i :: 0 <= i < |path| - 1 ==>
      path[i] == (gates + [RateAdmitted(rpc.RateName())])[i] && !path[i].Forwarded?;
    assert forall i :: 0 <= i < |trace| ==> trace[i] == path[i];
    if trace == path {
      assert trace[|trace| - 1].Forwarded?;
    }
  }

  lemma ClearedChecksHold(w: World, req: Request, rpc: Rpc, s: Subject, server: Server, e: Sessions.Entries, up: bool,
                          store: RateLimiting.Store)
    requires w.limits.Valid() && Cleared(w, req, rpc, s, server, e, up, store)
    ensures ChecksHold(w, req, rpc.op.Name(), rpc.params, s, server, e, store)
  {
    GatesIff(w, req, rpc, s, server, e, up);
    AskedIsResource(rpc);
  }

  /** Cleared, by what stands on the wire: every check holds, nothing fails on the way, and the rest is the
      method's own condition. */
  lemma {:induction false} ClearedIff(w: World, req: Request, rpc: Rpc, s: Subject, server: Server,
                                      e: Sessions.Entries, up: bool, store: RateLimiting.Store)
    requires w.limits.Valid()
    ensures Cleared(w, req, rpc, s, server, e, up, store) <==>
      && ChecksHold(w, req, rpc.op.Name(), rpc.params, s, server, e, store)
      && AuthStage !in w.failing && ServerStage !in w.failing && PolicyStage !in w.failing
      && LimiterStage !in w.failing
      && (Present(req.session) ==> up && Sessions.ValidId(req.session.value))
      && if rpc.op.Name() == "session/terminate" then Present(req.session)
         else !req.dryRun && (rpc.op.Name() == "tools/call" ==> CapStage !in w.failing && w.underCap(s.tenant))
  {
    GatesIff(w, req, rpc, s, server, e, up);
    AskedIsResource(rpc);
    TerminateOrCall(rpc.op);
  }

  lemma {:induction false} GatesIff(w: World, req: Request, rpc: Rpc, s: Subject, server: Server,
                                    e: Sessions.Entries, up: bool)
    ensures GatesPassed(w, req, rpc, s, server, e, up) <==>
      && GatesHold(w, req, rpc.op.Name(), rpc.params, s, server, e)
      && AuthStage !in w.failing && ServerStage !in w.failing
      && (Present(req.session) ==> up && Sessions.ValidId(req.session.value))
  {
    GuardedNames(rpc.op);
    AllowedOnWire(w, req, s, rpc);
  }

  lemma TerminateOrCall(op: Method)
    ensures op.Name() == "session/terminate" <==> op.Terminate?
    ensures op.Name() == "tools/call" <==> op.ToolsCall?
  {
    assert |"session/terminate"| == 17 && |"tools/call"| == 10 && "tools/call"[6] == 'c' && "tools/list"[6] == 'l';
    assert "initialize"[0] == 'i' && "roots/list"[0] == 'r';
  }

  lemma AllowedIsPermitted(w: World, req: Request, s: Subject, rpc: Rpc)
    requires rpc.op.NeedsPermission() && ResourceAllowed(w, req, s, rpc)
    ensures ResourceName(rpc).Some? && Permissions.Permitted(w.glob, req.slug, ResourceName(rpc).value, Rules(w, s))
  {
    Permissions.EvaluateIsPermitted(w.glob, req.slug, rpc.Resource().value.s, Rules(w, s));
  }

  lemma PathMakesChecks(s: Subject, server: Server, req: Request, rpc: Rpc)
    requires rpc.op.NeedsPermission() ==> ResourceName(rpc).Some?
    ensures ChecksMade(req, rpc.op.Name(), rpc.params, s, server,
                       Gates(s, server, req, rpc) + [RateAdmitted(rpc.RateName())])
  {
    GuardedNames(rpc.op);
    AskedIsResource(rpc);
    var first := [Authenticated(s), Resolved(server), SessionChecked(req.session)];
    var grant := if ResourceName(rpc).Some? then [Granted(ResourceName(rpc).value)] else [];
    assert Gates(s, server, req, rpc) == first + grant;
  }

  /** Pipeline safety: in every trace of the proxy, a forward is the only one, and before it the
      caller was authenticated, the server was found active, the session was the caller's or absent,
      the resource that a guarded method names on the wire was allowed, and the rate limiter admitted
      the call exactly once. */
  lemma EveryForwardIsSafe(w: World, req: Request, rpc: Rpc, e: Sessions.Entries, up: bool, store: RateLimiting.Store,
                           trace: seq<Event>, i: nat)
    requires w.limits.Valid() && ValidTrace(w, req, rpc, e, up, store, trace)
    requires i < |trace| && trace[i].Forwarded?
    ensures i == |trace| - 1
    ensures exists s, server ::
      Safe(w, req, rpc.op.Name(), rpc.params, s, server, e, store, trace[..i], trace[i].url)
  {
    var s := Identity(w, req).value;
    var server :| Follows(w, req, rpc, s, server, e, up, store, trace);
    ForwardOnPathIsSafe(w, req, rpc, s, server, e, up, store, trace, i);
  }

  lemma {:induction false} ForwardOnPathIsSafe(w: World, req: Request, rpc: Rpc, s: Subject, server: Server,
                                               e: Sessions.Entries, up: bool, store: RateLimiting.Store,
                                               trace: seq<Event>, i: nat)
    requires w.limits.Valid() && Follows(w, req, rpc, s, server, e, up, store, trace)
    requires i < |trace| && trace[i].Forwarded?
    ensures i == |trace| - 1
    ensures Safe(w, req, rpc.op.Name(), rpc.params, s, server, e, store, trace[..i], trace[i].url)
  {
    ForwardIsLast(w, req, rpc, s, server, e, up, store, trace);
    assert Forwards(trace);
    assert trace[..i] == Gates(s, server, req, rpc) + [RateAdmitted(rpc.RateName())];
    assert Cleared(w, req, rpc, s, server, e, up, store);
    ClearedChecksHold(w, req, rpc, s, server, e, up, store);
    ClearedChecksMade(w, req, rpc, s, server, e, up, store);
  }

  lemma ClearedChecksMade(w: World, req: Request, rpc: Rpc, s: Subject, server: Server, e: Sessions.Entries, up: bool,
                          store: RateLimiting.Store)
    requires w.limits.Valid() && Cleared(w, req, rpc, s, server, e, up, store)
    ensures ChecksMade(req, rpc.op.Name(), rpc.params, s, server,
                       Gates(s, server, req, rpc) + [RateAdmitted(rpc.RateName())])
  {
    if rpc.op.NeedsPermission() {
      AllowedIsPermitted(w, req, s, rpc);
    }
    PathMakesChecks(s, server, req, rpc);
  }

  /** Conversely, in every trace a grant belongs to a guarded method, and is for what it names. */
  lemma {:induction false} GrantsAreForGuarded(w: World, req: Request, rpc: Rpc, e: Sessions.Entries, up: bool,
                                               store: RateLimiting.Store, trace: seq<Event>, i: nat)
    requires w.limits.Valid() && ValidTrace(w, req, rpc, e, up, store, trace)
    requires i < |trace| && trace[i].Granted?
    ensures IsGuarded(rpc.op.Name()) && Asked(rpc.op.Name(), rpc.params) == Some(trace[i].name)
  {
    var s := Identity(w, req).value;
    var server :| Follows(w, req, rpc, s, server, e, up, store, trace);
    assert trace[i] == Path(s, server, req, rpc)[i];
    GuardedNames(rpc.op);
    AskedIsResource(rpc);
  }

  /** And exactly the cleared requests are forwarded. */
  lemma ForwardsIffCleared(w: World, req: Request, rpc: Rpc, e: Sessions.Entries, up: bool, store: RateLimiting.Store,
                           trace: seq<Event>)
    requires w.limits.Valid() && ValidTrace(w, req, rpc, e, up, store, trace)
    ensures Forwards(trace) <==> exists s, server :: Cleared(w, req, rpc, s, server, e, up, store)
  {
    if Identity(w, req).Some? {
      var s := Identity(w, req).value;
      var server :| Follows(w, req, rpc, s, server, e, up, store, trace);
      ForwardIsLast(w, req, rpc, s, server, e, up, store, trace);
    }
  }

  /** Dry runs never forward, except that a termination takes no notice of the flag: a dry run is
      forwarded exactly when it is a cleared termination. */
  lemma DryRunForwardsIff(w: World, req: Request, rpc: Rpc, e: Sessions.Entries, up: bool, store: RateLimiting.Store,
                          trace: seq<Event>)
    requires w.limits.Valid() && ValidTrace(w, req, rpc, e, up, store, trace) && req.dryRun
    ensures Forwards(trace) <==>
      rpc.op.Terminate? && exists s, server :: Cleared(w, req.(dryRun := false), rpc, s, server, e, up, store)
  {
    ForwardsIffCleared(w, req, rpc, e, up, store, trace);
    if s, server :| Cleared(w, req, rpc, s, server, e, up, store) {
      ClearedIgnoresDryRun(w, req, rpc, s, server, e, up, store);
    }
    if rpc.op.Terminate? {
      if s, server :| Cleared(w, req.(dryRun := false), rpc, s, server, e, up, store) {
        ClearedIgnoresDryRun(w, req, rpc, s, server, e, up, store);
      }
    }
  }

  /** A small world: one subject, one active server, the default limit, and nothing granted to anybody. */
  function SmallWorld(s: Subject, server: Server, upstream: Option<Reply>): World {
    var glob := (name: string, pattern: string) => true;
    World(Some(true), token => Some(s), (tenant, slug) => Some(server), url => true, glob,
          RbacRepositories.Tables([], [], [], 0), RateLimiting.Env(glob, tenant => [], 1, 1), tenant => true,
          upstream, {})
  }

  lemma SmallWorldClears(s: Subject, server: Server, upstream: Option<Reply>, req: Request, rpc: Rpc,
                         e: Sessions.Entries)
    requires server.status == Active && req.token != "" && SessionOwned(req, s, e, true) && !rpc.op.NeedsPermission()
    requires if rpc.op.Terminate? then Present(req.session) else !req.dryRun
    ensures SmallWorld(s, server, upstream).limits.Valid()
    ensures Cleared(SmallWorld(s, server, upstream), req, rpc, s, server, e, true, map[])
  {
    var w := SmallWorld(s, server, upstream);
    FirstCallIsAdmitted(w.limits, RateRequest(req, s, rpc.RateName()));
  }

  /** For instance: one session in the small world. */
  lemma DryRunTerminationIsForwarded() returns (w: World, req: Request, s: Subject, server: Server, e: Sessions.Entries)
    ensures w.limits.Valid() && req.dryRun
    ensures Cleared(w, req, Rpc(Terminate, None, map[]), s, server, e, true, map[])
  {
    var id, rpc := "session-1", Rpc(Terminate, None, map[]);
    s, server := Subject("tenant", ApiKey, "key"), Server("upstream", Active);
    w := SmallWorld(s, server, None);
    e := map[id := Sessions.Entry(Caller(s, "server"), 3600.0)];
    req := Request(Parsed(rpc), "token", "server", Some(id), true, false, 0.0, "");
    assert Sessions.ValidId(id);
    SmallWorldClears(s, server, None, req, rpc, e);
  }

  /** Under the default limit the first call on an empty store is admitted. */
  lemma FirstCallIsAdmitted(env: RateLimiting.Env, r: RateLimiting.Request)
    requires env.Valid() && env.policies(r.tenant) == []
    ensures RateLimiting.ValidPlan(RateLimiting.PlanOf(env, r))
    ensures RateLimiting.Step(env, map[], r).1 == RateLimiting.Allowed
  {
    RateLimiting.PlansAreValid(env, r);
    RateLimiting.NoPolicyMeansDefault(env, r);
  }

  lemma ClearedIgnoresDryRun(w: World, req: Request, rpc: Rpc, s: Subject, server: Server, e: Sessions.Entries,
                             up: bool,
                             store: RateLimiting.Store)
    requires w.limits.Valid() && rpc.op.Terminate?
    ensures Cleared(w, req, rpc, s, server, e, up, store) <==>
            Cleared(w, req.(dryRun := false), rpc, s, server, e, up, store)
  {
    assert RateRequest(req.(dryRun := false), s, rpc.RateName()) == RateRequest(req, s, rpc.RateName());
  }

  /** Listing and calling go by the same resource. */
  predicate SameKind(list: Method, call: Method) {
    || (list.ToolsList? && call.ToolsCall?)
    || (list.ResourcesList? && (call.ResourcesRead? || call.ResourcesSubscribe? || call.ResourcesUnsubscribe?))
    || (list.PromptsList? && call.PromptsGet?)
  }

  /** What is listed is what can be called: in an upstream list of known shape, a named item is
      shown to a subject exactly when a call naming it would pass the permission gate. */
  lemma ListedIffCallable(w: World, req: Request, s: Subject, list: Method, call: Rpc, body: Json, shown: Json,
                          item: Json)
    requires SameKind(list, call.op) && PermissionStage !in w.failing
    requires KnownShape(body, list.ListKey(), list.NameKey())
    requires Shown(w.glob, req.slug, Rules(w, s), list.ListKey(), list.NameKey(), body, shown)
    requires item in ListOf(body, list.ListKey()).items
    requires item.Obj? && list.NameKey() in item.fields
    requires list.NameKey() in call.params && call.params[list.NameKey()] == item.fields[list.NameKey()]
    ensures item in ListOf(shown, list.ListKey()).items <==> ResourceAllowed(w, req, s, call)
  {
    var name := item.fields[list.NameKey()];
    assert Named(list.NameKey(), item);
    assert call.op.NameKey() == list.NameKey() && call.Resource() == Some(name);
    ShownIffPermitted(w.glob, req.slug, Rules(w, s), list.ListKey(), list.NameKey(), body, shown, item);
    Permissions.EvaluateIsPermitted(w.glob, req.slug, name.s, Rules(w, s));
  }

  /** The lists, by their names on the wire: where the answer keeps the items, and where an item keeps its
      name. */
  ghost function ListFields(name: string): Option<(string, string)> {
    if name == "tools/list" then Some(("tools", "name"))
    else if name == "resources/list" then Some(("resources", "uri"))
    else if name == "prompts/list" then Some(("prompts", "name"))
    else if name == "roots/list" then Some(("roots", "uri"))
    else None
  }

  lemma ListNames(op: Method)
    ensures ListFields(op.Name()) == if op.IsList() then Some((op.ListKey(), op.NameKey())) else None
  {
    assert |"tools/list"| == 10 && |"ping"| == 4 && |"tools/call"| == 10 && "tools/call"[6] == 'c';
    assert |"resources/list"| == 14 && |"resources/read"| == 14 && "resources/read"[10] == 'r';
    assert |"prompts/list"| == 12 && |"roots/list"| == 10 && "roots/list"[0] == 'r' && |"initialize"| == 10;
  }

  /** What comes back of a buffered JSON answer to a list request, by the method's name: what the subject's
      rules show of it. No other answer is rewritten. */
  lemma {:induction false} ListsAreShown(w: World, req: Request, rpc: Rpc, s: Subject, before: Sessions.Entries,
                                         after: Sessions.Entries, up: bool, response: Response)
    requires Delivered(w, req, rpc) && !response.Error?
    requires Responds(w, req, rpc, s, before, after, up, response) && Presents(w, req, rpc, s, response)
    ensures
      var reply, fields := w.upstream.value, ListFields(rpc.op.Name());
      && (response.Listed? <==>
            fields.Some? && reply.body.Some? && !reply.eventStream && !req.acceptsStream)
      && (response.Listed? ==>
            Shown(w.glob, req.slug, RbacRepositories.PermissionsForSubject(w.tables, s.tenant, s.kind, s.id),
                  fields.value.0, fields.value.1, reply.body.value, response.body))
  {
    ListNames(rpc.op);
  }

  /** The caller gets a filtered list: only items that it may call. */
  ghost predicate Filtered(w: World, req: Request, rpc: Rpc, s: Subject, response: Response) {
    && response.Listed? && HasList(response.body, rpc.op.ListKey()) && ListOf(response.body, rpc.op.ListKey()).Arr?
    && forall item :: item in ListOf(response.body, rpc.op.ListKey()).items ==>
         Visible(w.glob, req.slug, Rules(w, s), rpc.op.NameKey())(item)
  }

  /** The answer escapes filtering: it is streamed, no JSON, or has no result object. */
  predicate EscapesFilter(req: Request, reply: Reply) {
    || reply.eventStream || req.acceptsStream || reply.body.None?
    || (reply.body.value.Obj? && (RESULT !in reply.body.value.fields || !reply.body.value.fields[RESULT].Obj?))
  }

  /** Exactly when an unfiltered answer to a list request reaches the caller. */
  lemma UnfilteredIff(w: World, req: Request, rpc: Rpc, s: Subject, before: Sessions.Entries, after: Sessions.Entries,
                      up: bool, response: Response)
    requires rpc.op.IsList() && Delivered(w, req, rpc) && !response.Error?
    requires Responds(w, req, rpc, s, before, after, up, response) && Presents(w, req, rpc, s, response)
    ensures !Filtered(w, req, rpc, s, response) <==> EscapesFilter(req, w.upstream.value)
  {
  }

  /** For instance: a subject to whom nothing is granted asks for the tools and accepts a stream. The
      request is cleared, and the upstream's list, with a tool that the subject may not see, escapes
      filtering. */
  lemma StreamedListIsUnfiltered() returns (w: World, req: Request, rpc: Rpc, s: Subject, server: Server, tool: Json)
    ensures w.limits.Valid() && Cleared(w, req, rpc, s, server, map[], true, map[])
    ensures rpc.op.ToolsList? && Delivered(w, req, rpc) && w.upstream.value.body.Some?
    ensures KnownShape(w.upstream.value.body.value, "tools", "name")
    ensures tool in ListOf(w.upstream.value.body.value, "tools").items
    ensures !Visible(w.glob, req.slug, Rules(w, s), "name")(tool)
    ensures EscapesFilter(req, w.upstream.value)
  {
    rpc, tool := Rpc(ToolsList, Some("1"), map[]), Obj(map["name" := Str("tool")]);
    s, server := Subject("tenant", ApiKey, "key"), Server("upstream", Active);
    var list := Obj(map["tools" := Arr([tool])]);
    var reply := Reply(200, None, false, false, false, Some(Obj(map[RESULT := list])));
    w := SmallWorld(s, server, Some(reply));
    req := Request(Parsed(rpc), "token", "server", None, false, true, 0.0, "");
    SmallWorldClears(s, server, Some(reply), req, rpc, map[]);
  }

  /** The answer to a notification passes on any new id, and pins none. */
  lemma NotificationAnswer(w: World, req: Request, rpc: Rpc, s: Subject, e: Sessions.Entries,
                           after: Sessions.Entries, up: bool, response: Response)
    requires rpc.id.None? && ForwardStage !in w.failing && w.upstream.Some?
    requires Responds(w, req, rpc, s, e, after, up, response)
    ensures
      var id := w.upstream.value.session;
      response == NoContent(if id == None || id == Some("") || id == req.session then None else id)
    ensures SameOwners(e, after, req.now, {})
  {
  }

  /** For instance, in the small world, an id that somebody else holds: it comes back to the caller. */
  lemma NotificationEchoesForeignId(s: Subject, server: Server, slug: string, id: string, held: Sessions.Entry)
    returns (w: World, req: Request, rpc: Rpc)
    requires server.status == Active && id != "" && held.owner != Caller(s, slug) && held.expiresAt > 0.0
    ensures w.limits.Valid() && Cleared(w, req, rpc, s, server, map[id := held], true, map[])
    ensures Sessions.OwnerAt(map[id := held], req.now, id) == Some(held.owner) && req.slug == slug
    ensures rpc.id.None? && ForwardStage !in w.failing && w.upstream.Some?
    ensures EchoedUnpinned(req, w.upstream.value) == Some(id)
  {
    rpc := Rpc(Initialized, None, map[]);
    var reply := Reply(202, Some(id), false, false, false, None);
    w := SmallWorld(s, server, Some(reply));
    req := Request(Parsed(rpc), "token", slug, None, false, false, 0.0, "");
    SmallWorldClears(s, server, Some(reply), req, rpc, map[id := held]);
  }
}
