/**
 * The browser observation group as a transition system: the values it keeps
 * and, for every native callback and owner action, the state it leads to.
 * Nothing here is an invariant; those are in ObservationInvariants.
 */
module ObservationModel {
  import opened Prelude

  type Fields = map<string, seq<string>>

  /** What parse_qs makes of a query string under strict parsing. */
  datatype Query = Malformed | Parsed(fields: Fields)

  datatype Url = Url(origin: string, path: string, query: Query, fragment: string)

  /** A native Request. Its redirect target may appear later, so that is browser state. */
  datatype Request = Request(id: nat, url: Url, verb: string, mainFrame: bool,
                             navigates: bool, redirectedFrom: bool)

  datatype Response = Response(request: Request, url: Url, status: int)

  /** Whose hold a row shows: the organisation, the root task and its lifecycle status. */
  datatype Pause = Pause(org: string, rootTaskId: string, lifecycle: string)

  datatype Row = Row(taskId: string, isRoot: bool, status: string, severity: string, pause: Pause)

  datatype Body = Body(rows: seq<Row>, rest: string)

  datatype Family = Roots | Recall | Jobs | Detail

  datatype Mode = Action | NewDocument

  /** Checks a body against what the caller predeclared; None where it is refused. */
  type Imaging = (Family, Body, Fields) -> Option<string>

  datatype TaskResult = Cancelled | Failed(error: string) | Bytes(body: Option<Body>)

  datatype Task = NoTask | Running | Done(result: TaskResult)

  datatype Outcome = WasCancelled | WasError | WasSuccess

  datatype Member = Member(request: Request, sequence: nat, query: Fields,
                           response: Option<Response>, task: Task, outcome: Option<Outcome>,
                           wakeActive: bool, cleanupAttached: bool, finished: bool,
                           json: Option<Body>)

  /** The document the page showed when the scope was armed. */
  datatype Source = Source(url: Url, pageUrl: Option<Url>, lineage: Option<Request>,
                           document: Option<nat>, pending: bool, unredirected: bool)

  /** What is fixed when a scope is armed; `armed` is the sequence number of that moment. */
  datatype Declaration = Declaration(path: string, family: Family, queries: seq<Fields>, mode: Mode,
                                     target: Url, source: Source, armed: nat)

  /**
   * Document lineage of a scope. `asked` is the sequence number stamped on the
   * note of its own navigation request.
   */
  datatype Track = Track(lineage: Option<Request>, reached: bool, navigation: Option<Request>,
                         asked: Option<nat>, commit: Option<nat>, invalid: bool, aborted: bool)

  /** One armed endpoint; `settled` lists its "body-settled" notes by member sequence. */
  datatype Scope = Scope(decl: Declaration, track: Track, members: seq<Member>,
                         images: map<Fields, string>, settled: seq<nat>)

  /** Main-frame facts the browser keeps. */
  datatype Page = Page(sequence: nat, document: Option<nat>, asked: Option<nat>,
                       lineage: Option<Request>, navigation: Option<Request>,
                       url: Url, shown: Url, redirected: set<Request>)

  datatype Phase = Open | Frozen | Settling | Finalizing | Finalized | Refused

  /** Origin, mode and target document of the group. */
  datatype Session = Session(base: string, mode: Mode, target: Url)

  /** Browser and group together. `armed` says the group's scopes still receive events. */
  datatype State = State(session: Session, page: Page, poisoned: bool, armed: bool,
                         phase: Phase, failure: Option<string>, scopes: seq<Scope>)

  datatype Payload = BadPayload | SameDocument(url: Url) | NewDocumentAt(url: Url, request: Request)

  /** Everything that can happen while the owner is not running. */
  datatype Event =
    | RequestStarted(request: Request)
    | Navigated(payload: Payload)
    | ResponseReceived(response: Response)
    | RequestFinished(request: Request)
    | RequestFailed(request: Request)
    | PageClosed
    | PageMoved(url: Url)
    | Redirected(request: Request)
    | TaskSettled(scope: nat, member: nat, result: TaskResult)
    | WakeDelivered(scope: nat, member: nat)
    | CleanupDelivered(scope: nat, member: nat)

  // ----- Shared predicates -----------------------------------------------------

  predicate Unredirected(page: Page, r: Request) {
    !r.redirectedFrom && r !in page.redirected
  }

  /** The scope still observes the very document it was promised. */
  predicate Current(page: Page, poisoned: bool, sc: Scope) {
    && !sc.track.aborted && !sc.track.invalid && !poisoned && sc.track.reached
    && sc.track.lineage.Some? && page.lineage == sc.track.lineage
    && page.url == sc.decl.target && page.shown == sc.decl.target
    && Unredirected(page, sc.track.lineage.value)
  }

  predicate AtEndpoint(base: string, path: string, u: Url) {
    u.origin == base && u.path == path
  }

  /** query_matches raises only for a malformed query without a fragment. */
  predicate QueryRaises(u: Url) {
    u.fragment == "" && u.query.Malformed?
  }

  predicate QueryMatches(queries: seq<Fields>, u: Url) {
    u.fragment == "" && u.query.Parsed? && u.query.fields in queries
  }

  predicate Eligible(s: State, sc: Scope, r: Request) {
    && AtEndpoint(s.session.base, sc.decl.path, r.url) && QueryMatches(sc.decl.queries, r.url)
    && r.mainFrame && r.verb == "GET" && Current(s.page, s.poisoned, sc) && Unredirected(s.page, r)
  }

  function Latch(failure: Option<string>, reason: string): Option<string> {
    if failure.None? then Some(reason) else failure
  }

  /** The position of a request among the members, or their number when absent. */
  function IndexOf(members: seq<Member>, r: Request): (i: nat)
    ensures i <= |members|
    ensures i < |members| ==> members[i].request == r
    ensures forall j :: 0 <= j < i ==> members[j].request != r
  {
    if members == [] then 0
    else if members[0].request == r then 0
    else 1 + IndexOf(members[1..], r)
  }

  predicate HasMember(s: State, k: nat, i: nat) {
    k < |s.scopes| && i < |s.scopes[k].members|
  }

  /** The state with another scope k. */
  function WithScope(s: State, k: nat, sc: Scope): State
    requires k < |s.scopes|
  {
    s.(scopes := s.scopes[k := sc])
  }

  // ----- Body outcomes ------------------------------------------------------------

  predicate Unobserved(m: Member) {
    m.task.Done? && m.outcome.None?
  }

  function OutcomeOf(result: TaskResult): Outcome {
    match result
    case Cancelled => WasCancelled
    case Failed(_) => WasError
    case Bytes(_) => WasSuccess
  }

  function BodyError(result: TaskResult): Option<string> {
    match result
    case Cancelled => Some("original-body-cancelled")
    case Failed(e) => Some(e)
    case Bytes(_) => None
  }

  function ObserveMember(sc: Scope, i: nat): Scope
    requires i < |sc.members|
  {
    var m := sc.members[i];
    if !Unobserved(m) then sc
    else sc.(members := sc.members[i := m.(outcome := Some(OutcomeOf(m.task.result)))],
             settled := sc.settled + [m.sequence])
  }

  /** observe_body with notification: an unaborted scope latches the body's error. */
  function Observe(s: State, k: nat, i: nat): State
    requires HasMember(s, k, i)
  {
    var sc, m := s.scopes[k], s.scopes[k].members[i];
    var error := if Unobserved(m) && !sc.track.aborted then BodyError(m.task.result) else None;
    WithScope(s, k, ObserveMember(sc, i)).(
      failure := if error.Some? then Latch(s.failure, error.value) else s.failure)
  }

  function ObserveFrom(s: State, k: nat, i: nat): State
    decreases |s.scopes| - k, if k < |s.scopes| then |s.scopes[k].members| - i else 0
  {
    if k >= |s.scopes| then s
    else if i >= |s.scopes[k].members| then ObserveFrom(s, k + 1, 0)
    else ObserveFrom(Observe(s, k, i), k, i + 1)
  }

  function ObserveAll(s: State): State {
    ObserveFrom(s, 0, 0)
  }

  // ----- Poison -------------------------------------------------------------------

  /** Local abort of one member: no owner wake afterwards, its outcome read at most once more. */
  function AbortMember(sc: Scope, i: nat): Scope
    requires i < |sc.members|
  {
    var m := sc.members[i];
    if m.task.NoTask? then sc
    else ObserveMember(sc.(members := sc.members[i :=
           m.(wakeActive := false, cleanupAttached := m.cleanupAttached || !m.task.Done?)]), i)
  }

  function AbortFrom(sc: Scope, i: nat): Scope
    decreases |sc.members| - i
  {
    if i >= |sc.members| then sc else AbortFrom(AbortMember(sc, i), i + 1)
  }

  function AbortScope(sc: Scope): Scope {
    AbortFrom(sc.(track := sc.track.(aborted := true)), 0)
  }

  function AbortAll(scopes: seq<Scope>): seq<Scope> {
    seq(|scopes|, k requires 0 <= k < |scopes| => AbortScope(scopes[k]))
  }

  function Poison(s: State, error: string): State {
    var s1 := ObserveAll(s);
    s1.(poisoned := true, failure := Latch(s1.failure, error),
        scopes := if s1.armed then AbortAll(s1.scopes) else s1.scopes)
  }

  // ----- Native callbacks -------------------------------------------------------------

  /** A main-frame navigation request is either this scope's own first one or a departure. */
  function NavigationRequest(page: Page, sc: Scope, r: Request): Scope {
    var t := sc.track;
    if !(r.mainFrame && r.navigates) then sc
    else if sc.decl.mode == NewDocument && t.navigation.None? && t.commit.None? && r.verb == "GET"
       && r.url == sc.decl.target && !r.redirectedFrom
    then sc.(track := t.(navigation := Some(r), asked := Some(page.sequence)))
    else sc.(track := t.(invalid := true))
  }

  function NewMember(r: Request, sequence: nat): Member
    requires r.url.query.Parsed?
  {
    Member(r, sequence, r.url.query.fields, None, NoTask, None, false, false, false, None)
  }

  /** What one scope makes of a started request: its own navigation, or a new member. */
  function RequestScope(s: State, was: Scope, r: Request): Scope {
    var sc := NavigationRequest(s.page, was, r);
    if Eligible(s, sc, r) && s.phase == Open && IndexOf(sc.members, r) == |sc.members|
    then sc.(members := sc.members + [NewMember(r, s.page.sequence)])
    else sc
  }

  /** An eligible start that cannot be admitted fails the group. */
  function RequestFailure(s: State, was: Scope, r: Request): Option<string> {
    var sc := NavigationRequest(s.page, was, r);
    if !Eligible(s, sc, r) then s.failure
    else if s.phase != Open then Latch(s.failure, "late-request")
    else if IndexOf(sc.members, r) < |sc.members| then Latch(s.failure, "duplicate-request-start")
    else s.failure
  }

  /** The body of the callback's loop for scope k, when its query does not raise. */
  function RequestAt(s: State, k: nat, r: Request): State
    requires k < |s.scopes|
  {
    WithScope(s, k, RequestScope(s, s.scopes[k], r)).(failure := RequestFailure(s, s.scopes[k], r))
  }

  function RequestFrom(s: State, k: nat, r: Request): State
    decreases |s.scopes| - k
  {
    if k >= |s.scopes| then s
    else if AtEndpoint(s.session.base, s.scopes[k].decl.path, r.url) && QueryRaises(r.url) then
      Poison(WithScope(s, k, NavigationRequest(s.page, s.scopes[k], r)), "invalid observation query")
    else RequestFrom(RequestAt(s, k, r), k + 1, r)
  }

  /** Every callback first advances the sequence number. */
  function Ticked(s: State): State {
    s.(page := s.page.(sequence := s.page.sequence + 1))
  }

  function Noted(s: State, r: Request): State {
    if r.mainFrame && r.navigates
    then s.(page := s.page.(navigation := Some(r), asked := Some(s.page.sequence)))
    else s
  }

  function OnRequest(s: State, r: Request): State {
    var s1 := Noted(Ticked(s), r);
    if s1.armed then RequestFrom(s1, 0, r) else s1
  }

  /** Before its commit a new-document scope tolerates only its unchanged old document. */
  predicate StillAtSource(page: Page, sc: Scope, u: Url) {
    var source, target, own := sc.decl.source, sc.decl.target, sc.track.navigation;
    && !sc.track.aborted
    && source.pageUrl == Some(source.url) && source.url == target && target == u && u == page.shown
    && source.lineage.Some? && page.lineage == source.lineage
    && source.document.Some? && source.document.value > 0 && page.document == source.document
    && !source.pending && source.unredirected && Unredirected(page, source.lineage.value)
    && (page.navigation.None?
        || (page.navigation == own && own.value.verb == "GET" && own.value.url == target
            && Unredirected(page, own.value)))
  }

  predicate SameDocumentValid(page: Page, sc: Scope, u: Url) {
    var t, target := sc.track, sc.decl.target;
    && page.lineage.Some? && !t.invalid
    && match sc.decl.mode
       case NewDocument =>
         if t.commit.None? then StillAtSource(page, sc, u)
         else page.lineage == t.lineage && u == target && target == page.shown
       case Action =>
         if t.reached then u == target else u == sc.decl.source.url || u == target
  }

  function TrackNavigated(page: Page, sc: Scope, isNew: bool, u: Url): Track {
    var t := sc.track;
    if isNew then
      if sc.decl.mode == NewDocument && t.commit.None? && t.navigation == page.lineage
         && u == sc.decl.target && !t.invalid
      then t.(lineage := page.lineage, commit := Some(page.sequence), reached := true)
      else t.(invalid := true)
    else
      var valid := SameDocumentValid(page, sc, u);
      t.(invalid := t.invalid || !valid,
         reached := t.reached || (sc.decl.mode == Action && valid && u == sc.decl.target))
  }

  function NavigatedScopes(s: State, isNew: bool, u: Url): State {
    if s.armed
    then s.(scopes := seq(|s.scopes|, k requires 0 <= k < |s.scopes| =>
                            s.scopes[k].(track := TrackNavigated(s.page, s.scopes[k], isNew, u))))
    else s
  }

  predicate CommitAccepted(page: Page, u: Url, r: Request) {
    page.navigation == Some(r) && r.mainFrame && r.verb == "GET" && r.navigates && r.url == u
    && Unredirected(page, r)
  }

  function OnNavigated(s: State, p: Payload): State {
    var s0 := Ticked(s);
    match p
    case BadPayload =>
      Poison(s0.(page := s0.page.(lineage := None)), "unambiguous pinned main-frame navigation payload")
    case SameDocument(u) =>
      NavigatedScopes(s0.(page := s0.page.(url := u)), false, u)
    case NewDocumentAt(u, r) => Committed(s0, u, r)
  }

  /** A new main-frame document, once the sequence has moved on. */
  function Committed(s: State, u: Url, r: Request): State {
    if !CommitAccepted(s.page, u, r) then
      Poison(s.(page := s.page.(lineage := None)), "unredirected main-frame document commit")
    else
      NavigatedScopes(s.(page := s.page.(lineage := Some(r), document := s.page.asked, navigation := None, url := u)), true, u)
  }

  predicate ResponseAccepted(s: State, sc: Scope, m: Member, response: Response) {
    && AtEndpoint(s.session.base, sc.decl.path, response.url) && QueryMatches(sc.decl.queries, response.url)
    && Current(s.page, s.poisoned, sc)
    && m.request.verb == "GET" && m.request.mainFrame && response.status == 200
    && Unredirected(s.page, m.request) && m.response.None?
  }

  function ResponseAt(s: State, k: nat, response: Response): State
    requires k < |s.scopes|
  {
    var sc := s.scopes[k];
    var i := IndexOf(sc.members, response.request);
    if i == |sc.members| then s
    else if !ResponseAccepted(s, sc, sc.members[i], response) then
      s.(failure := Latch(s.failure, "invalid-original-response"))
    else
      WithScope(s, k, sc.(members := sc.members[i :=
        sc.members[i].(response := Some(response), task := Running, wakeActive := true)]))
  }

  predicate ResponseRaises(s: State, k: nat, response: Response)
    requires k < |s.scopes|
  {
    && IndexOf(s.scopes[k].members, response.request) < |s.scopes[k].members|
    && AtEndpoint(s.session.base, s.scopes[k].decl.path, response.url) && QueryRaises(response.url)
  }

  function ResponseFrom(s: State, k: nat, response: Response): State
    decreases |s.scopes| - k
  {
    if k >= |s.scopes| then s
    else if ResponseRaises(s, k, response) then Poison(s, "invalid observation query")
    else ResponseFrom(ResponseAt(s, k, response), k + 1, response)
  }

  function OnResponse(s: State, response: Response): State {
    var s0 := Ticked(s);
    if s0.armed then ResponseFrom(s0, 0, response) else s0
  }

  function FinishedAt(s: State, k: nat, r: Request): State
    requires k < |s.scopes|
  {
    var sc := s.scopes[k];
    var i := IndexOf(sc.members, r);
    if i == |sc.members| then s
    else WithScope(s, k, sc.(members := sc.members[i := sc.members[i].(finished := true)])).(
           failure := if Unredirected(s.page, r) then s.failure else Latch(s.failure, "redirected-member"))
  }

  function FinishedFrom(s: State, k: nat, r: Request): State
    decreases |s.scopes| - k
  {
    if k >= |s.scopes| then s else FinishedFrom(FinishedAt(s, k, r), k + 1, r)
  }

  function OnFinished(s: State, r: Request): State {
    var s0 := Ticked(s);
    if s0.armed then FinishedFrom(s0, 0, r) else s0
  }

  predicate SomeMember(scopes: seq<Scope>, r: Request) {
    exists k :: 0 <= k < |scopes| && IndexOf(scopes[k].members, r) < |scopes[k].members|
  }

  function OnFailed(s: State, r: Request): State {
    var s0 := Ticked(s);
    if s0.armed && SomeMember(s0.scopes, r) then s0.(failure := Latch(s0.failure, "request-failed")) else s0
  }

  function OnClosed(s: State): State {
    if s.armed && s.scopes != [] then
      s.(failure := Latch(s.failure, "page-closed/crashed"),
         scopes := seq(|s.scopes|, k requires 0 <= k < |s.scopes| =>
                         s.scopes[k].(track := s.scopes[k].track.(invalid := true))))
    else s
  }

  function OnTask(s: State, k: nat, i: nat, result: TaskResult): State {
    if HasMember(s, k, i) && s.scopes[k].members[i].task.Running? then
      var sc := s.scopes[k];
      WithScope(s, k, sc.(members := sc.members[i := sc.members[i].(task := Done(result))]))
    else s
  }

  function OnWake(s: State, k: nat, i: nat): State {
    if HasMember(s, k, i) && s.scopes[k].members[i].wakeActive then Observe(s, k, i) else s
  }

  function OnCleanup(s: State, k: nat, i: nat): State {
    if HasMember(s, k, i) && s.scopes[k].members[i].cleanupAttached
    then WithScope(s, k, ObserveMember(s.scopes[k], i))
    else s
  }

  function Apply(s: State, e: Event): State {
    match e
    case RequestStarted(r) => OnRequest(s, r)
    case Navigated(p) => OnNavigated(s, p)
    case ResponseReceived(response) => OnResponse(s, response)
    case RequestFinished(r) => OnFinished(s, r)
    case RequestFailed(r) => OnFailed(s, r)
    case PageClosed => OnClosed(s)
    case PageMoved(u) => s.(page := s.page.(shown := u))
    case Redirected(r) => s.(page := s.page.(redirected := s.page.redirected + {r}))
    case TaskSettled(k, i, result) => OnTask(s, k, i, result)
    case WakeDelivered(k, i) => OnWake(s, k, i)
    case CleanupDelivered(k, i) => OnCleanup(s, k, i)
  }

  // ----- Owner actions ----------------------------------------------------------------

  function NewScope(s: State, path: string, family: Family, queries: seq<Fields>): Scope {
    var page, session := s.page, s.session;
    var source := Source(page.url, if page.shown == page.url then Some(page.shown) else None,
                         page.lineage, page.document, page.navigation.Some?,
                         page.lineage.Some? && Unredirected(page, page.lineage.value));
    Scope(Declaration(path, family, queries, session.mode, session.target, source, page.sequence),
          Track(if session.mode == Action then page.lineage else None,
                session.mode == Action && page.url == session.target, None, None, None, false, false),
          [], map[], [])
  }

  /** response(): refused unless the group is open and the endpoint is not armed yet. */
  predicate CanArm(s: State, path: string) {
    s.phase == Open && forall k :: 0 <= k < |s.scopes| ==> s.scopes[k].decl.path != path
  }

  function Arm(s: State, path: string, family: Family, queries: seq<Fields>): State {
    s.(scopes := s.scopes + [NewScope(s, path, family, queries)])
  }

  /** guard() passes when, after observing bodies, nothing failed and every scope is current. */
  predicate GuardPasses(s: State, inBound: bool) {
    && s.failure.None? && inBound && !s.poisoned
    && forall k :: 0 <= k < |s.scopes| ==> Current(s.page, s.poisoned, s.scopes[k])
  }

  /** The part of consume() that turns a finished body into the member's JSON. */
  function DigestMember(sc: Scope, i: nat, imaging: Imaging): Option<Scope>
    requires i < |sc.members|
  {
    var m := sc.members[i];
    if m.json.Some? then Some(sc)
    else if !(m.task.Done? && m.task.result.Bytes? && m.task.result.body.Some?) then None
    else
      var body := m.task.result.body.value;
      var image := imaging(sc.decl.family, body, m.query);
      if image.None? || (m.query in sc.images && sc.images[m.query] != image.value) then None
      else Some(sc.(images := sc.images[m.query := image.value],
                    members := sc.members[i := m.(json := Some(body))]))
  }

  /** The member recheck at the end of consume(). */
  predicate Rechecked(s: State, k: nat, i: nat)
    requires HasMember(s, k, i)
  {
    var sc, m := s.scopes[k], s.scopes[k].members[i];
    && m.response.Some? && m.response.value.request == m.request && m.response.value.status == 200
    && m.request.verb == "GET" && m.request.mainFrame && Unredirected(s.page, m.request)
    && AtEndpoint(s.session.base, sc.decl.path, m.response.value.url)
    && QueryMatches(sc.decl.queries, m.response.value.url)
    && m.response.value.url.query.fields == m.query
  }

  /** finalize() stops the wake callbacks of settled bodies. */
  function DetachWakes(sc: Scope): Scope {
    sc.(members := seq(|sc.members|, i requires 0 <= i < |sc.members| => sc.members[i].(wakeActive := false)))
  }

  /** The owner unwinds: observe what is done, refuse, poison, disarm. */
  function Refuse(s: State, error: string): State {
    Poison(ObserveAll(s).(phase := Refused), error).(armed := false)
  }
}
