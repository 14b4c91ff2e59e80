/**
 The provider registry: two maps whose entries refer to each other, and the
 resolution of a route into its ordered candidates.
 */
module Registry {
  import opened Base

  datatype Protocol = AnthropicMessages | OpenAICompatible

  datatype Provider = Provider(
    id: string, name: string, protocol: Protocol, baseUrl: string,
    credentialRef: Option<string>, models: seq<string>, enabled: bool)

  datatype Route = Route(
    id: string, name: string, providerId: string, model: string, enabled: bool,
    fallbacks: Option<seq<string>>)
  {
    function FallbackIds(): seq<string> {
      if fallbacks.Some? then fallbacks.value else []
    }
  }

  /** A resolved route carries a credential reference, never a secret. */
  datatype Resolved = Resolved(
    routeId: string, providerId: string, protocol: Protocol, baseUrl: string, model: string, credentialRef: Option<string>)

  datatype RegistryError =
    | InvalidProvider
    | InvalidRoute
    | DuplicateFallback
    | TooManyFallbacks
    | DuplicateProvider
    | DuplicateRoute
    | ProviderNotFound
    | RouteNotFound
    | ModelNotAvailable
    | ProviderDisabled
    | RouteDisabled
    | ProviderHasRoutes
    | FallbackNotFound
    | FallbackModelNotAvailable
    | InvalidSnapshot

  /** The patterns a field must match. They are regular expressions and a URL parser in the program. */
  datatype Rules = Rules(
    idOk: string -> bool,
    nameOk: string -> bool,
    urlOk: string -> bool,
    credentialOk: string -> bool,
    modelOk: string -> bool,
    looksSecret: string -> bool,
    refLooksSecret: string -> bool)

  /** An untyped argument: something that is not even shaped like a definition, or a definition. */
  datatype Input<T> = Malformed(error: RegistryError) | Shaped(value: T)

  const MAX_ROUTE_FALLBACKS: nat := 4

  datatype State = State(providers: map<string, Provider>, routes: map<string, Route>)

  // ----- field rules -----

  predicate Distinct(items: seq<string>) {
    forall i, j :: 0 <= i < j < |items| ==> items[i] != items[j]
  }

  predicate ModelsOk(rules: Rules, models: seq<string>) {
    && models != []
    && Distinct(models)
    && forall i :: 0 <= i < |models| ==> rules.modelOk(models[i])
  }

  predicate ProviderOk(rules: Rules, p: Provider) {
    && rules.idOk(p.id) && rules.nameOk(p.name) && rules.urlOk(p.baseUrl)
    && (p.credentialRef.Some? ==> rules.credentialOk(p.credentialRef.value))
    && ModelsOk(rules, p.models)
  }

  function CheckProvider(rules: Rules, input: Input<Provider>): Result<Provider, RegistryError> {
    if input.Malformed? then Err(input.error)
    else if ProviderOk(rules, input.value) then Ok(input.value)
    else Err(InvalidProvider)
  }

  /** The first thing wrong with a fallback list, the primary counting as seen. */
  function FallbackError(rules: Rules, primary: string, ids: seq<string>): Option<RegistryError> {
    if ids == [] then None
    else
      var before := FallbackError(rules, primary, ids[..|ids| - 1]);
      var last := ids[|ids| - 1];
      if before.Some? then before
      else if !rules.idOk(last) || rules.looksSecret(last) then Some(InvalidRoute)
      else if last == primary || last in ids[..|ids| - 1] then Some(DuplicateFallback)
      else None
  }

  predicate FallbacksOk(rules: Rules, primary: string, ids: seq<string>) {
    && |ids| <= MAX_ROUTE_FALLBACKS
    && Distinct(ids)
    && primary !in ids
    && forall i :: 0 <= i < |ids| ==> rules.idOk(ids[i]) && !rules.looksSecret(ids[i])
  }

  lemma {:induction false} FallbackErrorMeaning(rules: Rules, primary: string, ids: seq<string>)
    ensures FallbackError(rules, primary, ids).None? <==>
              && Distinct(ids) && primary !in ids
              && forall i :: 0 <= i < |ids| ==> rules.idOk(ids[i]) && !rules.looksSecret(ids[i])
    decreases |ids|
  {
    if ids != [] {
      var init := ids[..|ids| - 1];
      FallbackErrorMeaning(rules, primary, init);
      assert ids == init + [ids[|ids| - 1]];
    }
  }

  predicate RouteFieldsOk(rules: Rules, r: Route) {
    rules.idOk(r.id) && rules.nameOk(r.name) && rules.modelOk(r.model)
  }

  predicate RouteOk(rules: Rules, r: Route) {
    RouteFieldsOk(rules, r) && r.providerId != "" && FallbacksOk(rules, r.providerId, r.FallbackIds())
  }

  function CheckRoute(rules: Rules, input: Input<Route>): (r: Result<Route, RegistryError>)
    ensures r.Ok? <==> input.Shaped? && RouteOk(rules, input.value)
    ensures r.Ok? ==> r.value == input.value
  {
    if input.Malformed? then Err(input.error)
    else
      var r := input.value;
      FallbackErrorMeaning(rules, r.providerId, r.FallbackIds());
      if !rules.idOk(r.id) || !rules.nameOk(r.name) then Err(InvalidRoute)
      else if r.providerId == "" then Err(ProviderNotFound)
      else if !rules.modelOk(r.model) then Err(InvalidRoute)
      else if |r.FallbackIds()| > MAX_ROUTE_FALLBACKS then Err(TooManyFallbacks)
      else
        match FallbackError(rules, r.providerId, r.FallbackIds())
        case Some(error) => Err(error)
        case None => Ok(r)
  }

  // ----- mutations -----

  function ProviderIds(r: Route): seq<string> {
    [r.providerId] + r.FallbackIds()
  }

  predicate References(r: Route, providerId: string) {
    r.providerId == providerId || providerId in r.FallbackIds()
  }

  function RegisterProvider(rules: Rules, st: State, input: Input<Provider>): Result<State, RegistryError> {
    match CheckProvider(rules, input)
    case Err(error) => Err(error)
    case Ok(p) =>
      if p.id in st.providers then Err(DuplicateProvider) else Ok(st.(providers := st.providers[p.id := p]))
  }

  function UpdateProvider(rules: Rules, st: State, input: Input<Provider>): Result<State, RegistryError> {
    match CheckProvider(rules, input)
    case Err(error) => Err(error)
    case Ok(p) =>
      if p.id !in st.providers then Err(ProviderNotFound)
      else if exists id <- st.routes :: References(st.routes[id], p.id) && st.routes[id].model !in p.models then Err(ModelNotAvailable)
      else Ok(st.(providers := st.providers[p.id := p]))
  }

  function RemoveProvider(st: State, id: string): Result<State, RegistryError> {
    if id !in st.providers then Err(ProviderNotFound)
    else if exists r <- st.routes :: References(st.routes[r], id) then Err(ProviderHasRoutes)
    else Ok(st.(providers := st.providers - {id}))
  }

  /** The first configured fallback that is missing or does not serve the model. */
  function FallbackProblem(st: State, model: string, ids: seq<string>): Option<RegistryError> {
    if ids == [] then None
    else if ids[0] !in st.providers then Some(FallbackNotFound)
    else if model !in st.providers[ids[0]].models then Some(FallbackModelNotAvailable)
    else FallbackProblem(st, model, ids[1..])
  }

  function LinkProblem(st: State, r: Route): Option<RegistryError> {
    if r.providerId !in st.providers then Some(ProviderNotFound)
    else
      var primary := st.providers[r.providerId];
      if r.model !in primary.models then Some(ModelNotAvailable)
      else if !primary.enabled && r.enabled then Some(ProviderDisabled)
      else FallbackProblem(st, r.model, r.FallbackIds())
  }

  function PutRoute(rules: Rules, st: State, input: Input<Route>, isNew: bool): Result<State, RegistryError> {
    match CheckRoute(rules, input)
    case Err(error) => Err(error)
    case Ok(r) =>
      if isNew && r.id in st.routes then Err(DuplicateRoute)
      else if !isNew && r.id !in st.routes then Err(RouteNotFound)
      else
        match LinkProblem(st, r)
        case Some(error) => Err(error)
        case None => Ok(st.(routes := st.routes[r.id := r]))
  }

  function RemoveRoute(st: State, id: string): Result<State, RegistryError> {
    if id !in st.routes then Err(RouteNotFound) else Ok(st.(routes := st.routes - {id}))
  }

  // ----- integrity -----

  /** The provider is there and serves the model. */
  predicate Serves(st: State, id: string, model: string) {
    id in st.providers && model in st.providers[id].models
  }

  predicate RouteLinked(st: State, r: Route) {
    Serves(st, r.providerId, r.model) && forall i :: 0 <= i < |r.FallbackIds()| ==> Serves(st, r.FallbackIds()[i], r.model)
  }

  predicate Integrity(rules: Rules, st: State) {
    && (forall id <- st.providers :: st.providers[id].id == id && ProviderOk(rules, st.providers[id]))
    && (forall id <- st.routes :: st.routes[id].id == id && RouteOk(rules, st.routes[id]) && RouteLinked(st, st.routes[id]))
  }

  lemma {:induction false} FallbackProblemMeaning(st: State, model: string, ids: seq<string>)
    ensures FallbackProblem(st, model, ids).None? <==> forall i :: 0 <= i < |ids| ==> Serves(st, ids[i], model)
    decreases |ids|
  {
    if ids != [] {
      FallbackProblemMeaning(st, model, ids[1..]);
      assert forall i :: 1 <= i < |ids| ==> ids[i] == ids[1..][i - 1];
    }
  }

  lemma LinkProblemMeaning(st: State, r: Route)
    ensures LinkProblem(st, r).None? <==>
              RouteLinked(st, r) && (r.enabled ==> st.providers[r.providerId].enabled)
  {
    FallbackProblemMeaning(st, r.model, r.FallbackIds());
  }

  datatype Op =
    | CreateProvider(provider: Input<Provider>)
    | ChangeProvider(provider: Input<Provider>)
    | DeleteProvider(id: string)
    | CreateRoute(route: Input<Route>)
    | ChangeRoute(route: Input<Route>)
    | DeleteRoute(id: string)

  function Apply(rules: Rules, st: State, op: Op): Result<State, RegistryError> {
    match op
    case CreateProvider(input) => RegisterProvider(rules, st, input)
    case ChangeProvider(input) => UpdateProvider(rules, st, input)
    case DeleteProvider(id) => RemoveProvider(st, id)
    case CreateRoute(input) => PutRoute(rules, st, input, true)
    case ChangeRoute(input) => PutRoute(rules, st, input, false)
    case DeleteRoute(id) => RemoveRoute(st, id)
  }

  lemma ProviderOpsKeep(rules: Rules, st: State, op: Op)
    requires Integrity(rules, st) && Apply(rules, st, op).Ok?
    requires op.CreateProvider? || op.ChangeProvider? || op.DeleteProvider?
    ensures Integrity(rules, Apply(rules, st, op).value)
  {
    hide ProviderOk;
    hide RouteOk;
    var next := Apply(rules, st, op).value;
    forall id <- next.routes
      ensures RouteLinked(next, next.routes[id])
    {
      var r := st.routes[id];
      assert RouteLinked(st, r);
      forall i | 0 <= i < |r.FallbackIds()|
        ensures Serves(next, r.FallbackIds()[i], r.model)
      {
        assert Serves(st, r.FallbackIds()[i], r.model);
        assert r.FallbackIds()[i] in r.FallbackIds();
      }
    }
  }

  lemma RouteOpsKeep(rules: Rules, st: State, op: Op)
    requires Integrity(rules, st) && Apply(rules, st, op).Ok?
    requires op.CreateRoute? || op.ChangeRoute? || op.DeleteRoute?
    ensures Integrity(rules, Apply(rules, st, op).value)
  {
    hide ProviderOk;
    hide RouteOk;
    var next := Apply(rules, st, op).value;
    if !op.DeleteRoute? {
      LinkProblemMeaning(st, op.route.value);
    }
    forall id <- next.routes
      ensures RouteLinked(next, next.routes[id])
    {
      assert forall r: Route :: RouteLinked(st, r) ==> RouteLinked(next, r);
      if id in st.routes {
        assert RouteLinked(st, st.routes[id]);
      }
    }
  }

  /** Every operation keeps the references intact; a refused one changes nothing. */
  lemma OpsKeepIntegrity(rules: Rules, st: State, op: Op)
    requires Integrity(rules, st) && Apply(rules, st, op).Ok?
    ensures Integrity(rules, Apply(rules, st, op).value)
  {
    hide Apply;
    if op.CreateProvider? || op.ChangeProvider? || op.DeleteProvider? {
      ProviderOpsKeep(rules, st, op);
    } else {
      RouteOpsKeep(rules, st, op);
    }
  }

  /** The maps after an operation that asks no questions; None when its target is not what it must be. */
  function Intended(st: State, op: Op): Option<State> {
    match op
    case CreateProvider(Shaped(p)) => if p.id in st.providers then None else Some(st.(providers := st.providers[p.id := p]))
    case ChangeProvider(Shaped(p)) => if p.id !in st.providers then None else Some(st.(providers := st.providers[p.id := p]))
    case DeleteProvider(id) => if id !in st.providers then None else Some(st.(providers := st.providers - {id}))
    case CreateRoute(Shaped(r)) => if r.id in st.routes then None else Some(st.(routes := st.routes[r.id := r]))
    case ChangeRoute(Shaped(r)) => if r.id !in st.routes then None else Some(st.(routes := st.routes[r.id := r]))
    case DeleteRoute(id) => if id !in st.routes then None else Some(st.(routes := st.routes - {id}))
    case _ => None
  }

  /** The one rule about enabling that the registry has: a route is not put on a disabled primary. */
  predicate PutsLiveRoute(st: State, op: Op) {
    match op
    case CreateRoute(Shaped(r)) => r.enabled && r.providerId in st.providers ==> st.providers[r.providerId].enabled
    case ChangeRoute(Shaped(r)) => r.enabled && r.providerId in st.providers ==> st.providers[r.providerId].enabled
    case _ => true
  }

  /**
   An operation is accepted exactly when simply carrying it out would leave the
   references intact and it puts no enabled route on a disabled primary; then
   that is what it does.
   */
  lemma AppliesExactlyWhen(rules: Rules, st: State, op: Op)
    requires Integrity(rules, st)
    ensures Apply(rules, st, op).Ok? <==>
              Intended(st, op).Some? && Integrity(rules, Intended(st, op).value) && PutsLiveRoute(st, op)
    ensures Apply(rules, st, op).Ok? ==> Intended(st, op) == Some(Apply(rules, st, op).value)
  {
    hide Integrity;
    if Apply(rules, st, op).Ok? {
      OpsKeepIntegrity(rules, st, op);
    }
    match op
    case DeleteRoute(id) =>
      if id in st.routes {
        OpsKeepIntegrity(rules, st, op);
      }
    case _ =>
      if Intended(st, op).Some? && Integrity(rules, Intended(st, op).value) && PutsLiveRoute(st, op) {
        match op
        case CreateProvider(input) => ProviderAccepted(rules, st, input, true);
        case ChangeProvider(input) => ProviderAccepted(rules, st, input, false);
        case DeleteProvider(id) => RemovalAccepted(rules, st, id);
        case CreateRoute(input) => RouteAccepted(rules, st, input, true);
        case ChangeRoute(input) => RouteAccepted(rules, st, input, false);
      }
  }

  lemma ProviderAccepted(rules: Rules, st: State, input: Input<Provider>, isNew: bool)
    requires Integrity(rules, st) && input.Shaped? && (isNew <==> input.value.id !in st.providers)
    requires Integrity(rules, st.(providers := st.providers[input.value.id := input.value]))
    ensures (if isNew then RegisterProvider(rules, st, input) else UpdateProvider(rules, st, input)).Ok?
  {
    var p := input.value;
    var next := st.(providers := st.providers[p.id := p]);
    hide ProviderOk, RouteOk;
    assert next.providers[p.id] == p;
    forall id <- st.routes | References(st.routes[id], p.id)
      ensures st.routes[id].model in p.models
    {
      var r := next.routes[id];
      assert RouteLinked(next, r);
      if r.providerId != p.id {
        var i :| 0 <= i < |r.FallbackIds()| && r.FallbackIds()[i] == p.id;
        assert Serves(next, r.FallbackIds()[i], r.model);
      }
    }
  }

  lemma RemovalAccepted(rules: Rules, st: State, id: string)
    requires Integrity(rules, st) && id in st.providers && Integrity(rules, st.(providers := st.providers - {id}))
    ensures RemoveProvider(st, id).Ok?
  {
    hide ProviderOk, RouteOk;
    var next := st.(providers := st.providers - {id});
    forall route <- st.routes
      ensures !References(st.routes[route], id)
    {
      var r := next.routes[route];
      assert RouteLinked(next, r);
      forall i | 0 <= i < |r.FallbackIds()|
        ensures r.FallbackIds()[i] != id
      {
        assert Serves(next, r.FallbackIds()[i], r.model);
      }
    }
  }

  lemma RouteAccepted(rules: Rules, st: State, input: Input<Route>, isNew: bool)
    requires Integrity(rules, st) && input.Shaped? && (isNew <==> input.value.id !in st.routes)
    requires Integrity(rules, st.(routes := st.routes[input.value.id := input.value]))
    requires input.value.enabled && input.value.providerId in st.providers ==> st.providers[input.value.providerId].enabled
    ensures PutRoute(rules, st, input, isNew).Ok?
  {
    hide ProviderOk, RouteOk;
    var r := input.value;
    var next := st.(routes := st.routes[r.id := r]);
    assert next.routes[r.id] == r;
    assert RouteLinked(next, r) ==> RouteLinked(st, r);
    LinkProblemMeaning(st, r);
  }

  /** The registry after a sequence of operations, refused ones skipped. */
  function After(rules: Rules, st: State, ops: seq<Op>): State
    decreases |ops|
  {
    if ops == [] then st
    else
      match Apply(rules, st, ops[0])
      case Ok(next) => After(rules, next, ops[1..])
      case Err(_) => After(rules, st, ops[1..])
  }

  /** Every reachable registry: primaries and fallbacks exist and serve the route's model. */
  lemma {:induction false} ReachableIntegrity(rules: Rules, st: State, ops: seq<Op>)
    requires Integrity(rules, st)
    ensures Integrity(rules, After(rules, st, ops))
    decreases |ops|
  {
    hide Integrity;
    hide Apply;
    if ops != [] {
      match Apply(rules, st, ops[0])
      case Ok(next) =>
        OpsKeepIntegrity(rules, st, ops[0]);
        ReachableIntegrity(rules, next, ops[1..]);
      case Err(_) => ReachableIntegrity(rules, st, ops[1..]);
    }
  }

  const EMPTY := State(map[], map[])

  /** Every registry the program can build: it starts empty. */
  lemma BuiltIntegrity(rules: Rules, ops: seq<Op>)
    ensures Integrity(rules, After(rules, EMPTY, ops))
  {
    ReachableIntegrity(rules, EMPTY, ops);
  }

  // ----- refusals -----

  /** The definition an operation is about is malformed; such input brings its own error. */
  predicate Unshaped(op: Op) {
    match op
    case CreateProvider(input) => input.Malformed?
    case ChangeProvider(input) => input.Malformed?
    case CreateRoute(input) => input.Malformed?
    case ChangeRoute(input) => input.Malformed?
    case _ => false
  }

  /** What an error says about a provider that is to be put. */
  predicate ProviderFault(rules: Rules, st: State, p: Provider, isNew: bool, error: RegistryError) {
    match error
    case InvalidProvider => !ProviderOk(rules, p)
    case DuplicateProvider => isNew && p.id in st.providers
    case ProviderNotFound => !isNew && p.id !in st.providers
    case ModelNotAvailable => !isNew && exists id <- st.routes :: References(st.routes[id], p.id) && st.routes[id].model !in p.models
    case _ => false
  }

  /** What an error says about a route that is to be put. */
  predicate RouteFault(rules: Rules, st: State, r: Route, isNew: bool, error: RegistryError) {
    var ids := r.FallbackIds();
    match error
    case InvalidRoute => !RouteFieldsOk(rules, r) || exists id <- ids :: !rules.idOk(id) || rules.looksSecret(id)
    case TooManyFallbacks => |ids| > 4
    case DuplicateFallback => !Distinct(ids) || r.providerId in ids
    case DuplicateRoute => isNew && r.id in st.routes
    case RouteNotFound => !isNew && r.id !in st.routes
    case ProviderNotFound => r.providerId == "" || r.providerId !in st.providers
    case ModelNotAvailable => r.providerId in st.providers && r.model !in st.providers[r.providerId].models
    case ProviderDisabled => r.enabled && r.providerId in st.providers && !st.providers[r.providerId].enabled
    case FallbackNotFound => exists id <- ids :: id !in st.providers
    case FallbackModelNotAvailable => exists id <- ids :: id in st.providers && r.model !in st.providers[id].models
    case _ => false
  }

  predicate Fault(rules: Rules, st: State, op: Op, error: RegistryError) {
    match op
    case CreateProvider(Shaped(p)) => ProviderFault(rules, st, p, true, error)
    case ChangeProvider(Shaped(p)) => ProviderFault(rules, st, p, false, error)
    case DeleteProvider(id) =>
      || (error == ProviderNotFound && id !in st.providers)
      || (error == ProviderHasRoutes && exists r <- st.routes :: References(st.routes[r], id))
    case CreateRoute(Shaped(r)) => RouteFault(rules, st, r, true, error)
    case ChangeRoute(Shaped(r)) => RouteFault(rules, st, r, false, error)
    case DeleteRoute(id) => error == RouteNotFound && id !in st.routes
    case _ => false
  }

  lemma {:induction false} FallbackErrorIsTrue(rules: Rules, primary: string, ids: seq<string>)
    requires FallbackError(rules, primary, ids).Some?
    ensures match FallbackError(rules, primary, ids).value
            case InvalidRoute => exists id <- ids :: !rules.idOk(id) || rules.looksSecret(id)
            case DuplicateFallback => !Distinct(ids) || primary in ids
            case _ => false
    decreases |ids|
  {
    var init, last := ids[..|ids| - 1], ids[|ids| - 1];
    if FallbackError(rules, primary, init).Some? {
      FallbackErrorIsTrue(rules, primary, init);
    } else if last in init {
      var i :| 0 <= i < |init| && init[i] == last;
      assert ids[i] == ids[|ids| - 1];
    }
  }

  lemma {:induction false} FallbackProblemIsTrue(st: State, model: string, ids: seq<string>)
    requires FallbackProblem(st, model, ids).Some?
    ensures match FallbackProblem(st, model, ids).value
            case FallbackNotFound => exists id <- ids :: id !in st.providers
            case FallbackModelNotAvailable => exists id <- ids :: id in st.providers && model !in st.providers[id].models
            case _ => false
    decreases |ids|
  {
    if ids[0] in st.providers && model in st.providers[ids[0]].models {
      FallbackProblemIsTrue(st, model, ids[1..]);
    }
  }

  lemma RouteRefusalIsTrue(rules: Rules, st: State, r: Route, isNew: bool)
    requires PutRoute(rules, st, Shaped(r), isNew).Err?
    ensures RouteFault(rules, st, r, isNew, PutRoute(rules, st, Shaped(r), isNew).error)
  {
    if FallbackError(rules, r.providerId, r.FallbackIds()).Some? {
      FallbackErrorIsTrue(rules, r.providerId, r.FallbackIds());
    }
    if FallbackProblem(st, r.model, r.FallbackIds()).Some? {
      FallbackProblemIsTrue(st, r.model, r.FallbackIds());
    }
  }

  /** The error of a refused operation names a fault that is there. */
  lemma RefusalIsTrue(rules: Rules, st: State, op: Op)
    requires Apply(rules, st, op).Err? && !Unshaped(op)
    ensures Fault(rules, st, op, Apply(rules, st, op).error)
  {
    hide PutRoute, RouteFault, ProviderOk;
    match op
    case CreateRoute(Shaped(r)) => RouteRefusalIsTrue(rules, st, r, true);
    case ChangeRoute(Shaped(r)) => RouteRefusalIsTrue(rules, st, r, false);
    case _ =>
  }

  // ----- resolution -----

  function ResolvedBy(r: Route, p: Provider): Resolved {
    Resolved(r.id, p.id, p.protocol, p.baseUrl, r.model, p.credentialRef)
  }

  function ResolveRoute(st: State, routeId: string): Result<Resolved, RegistryError> {
    if routeId !in st.routes then Err(RouteNotFound)
    else
      var r := st.routes[routeId];
      if !r.enabled then Err(RouteDisabled)
      else if r.providerId !in st.providers then Err(ProviderNotFound)
      else
        var p := st.providers[r.providerId];
        if !p.enabled then Err(ProviderDisabled)
        else if r.model !in p.models then Err(InvalidSnapshot)
        else Ok(ResolvedBy(r, p))
  }

  /** The enabled providers of a list, in order; an error when one is missing or does not serve the model. */
  function Candidates(st: State, r: Route, ids: seq<string>): Result<seq<Resolved>, RegistryError> {
    if ids == [] then Ok([])
    else
      match Candidates(st, r, ids[..|ids| - 1])
      case Err(error) => Err(error)
      case Ok(before) =>
        var id := ids[|ids| - 1];
        if id !in st.providers then Err(if id == r.providerId then ProviderNotFound else FallbackNotFound)
        else if r.model !in st.providers[id].models then Err(if id == r.providerId then InvalidSnapshot else FallbackModelNotAvailable)
        else if !st.providers[id].enabled then Ok(before)
        else Ok(before + [ResolvedBy(r, st.providers[id])])
  }

  function ResolveCandidates(st: State, routeId: string): Result<seq<Resolved>, RegistryError> {
    if routeId !in st.routes then Err(RouteNotFound)
    else
      var r := st.routes[routeId];
      if !r.enabled then Err(RouteDisabled)
      else
        match Candidates(st, r, ProviderIds(r))
        case Err(error) => Err(error)
        case Ok(found) => if found == [] then Err(ProviderDisabled) else Ok(found)
  }

  /** Without fallbacks the candidates are the one resolved route, and fail exactly when it does. */
  lemma SoleCandidate(st: State, routeId: string)
    requires routeId in st.routes ==> st.routes[routeId].FallbackIds() == []
    ensures ResolveCandidates(st, routeId).Ok? <==> ResolveRoute(st, routeId).Ok?
    ensures ResolveRoute(st, routeId).Ok? ==> ResolveCandidates(st, routeId).value == [ResolveRoute(st, routeId).value]
  {
    if routeId in st.routes {
      var r := st.routes[routeId];
      assert ProviderIds(r) == [r.providerId];
      assert [r.providerId][..0] == [];
      assert Candidates(st, r, []) == Ok([]);
      var none: seq<Resolved> := [];
      assert forall x: Resolved :: none + [x] == [x];
    }
  }

  lemma {:induction false} CandidatesOfLinked(rules: Rules, st: State, r: Route, ids: seq<string>)
    requires Integrity(rules, st) && forall i :: 0 <= i < |ids| ==> Serves(st, ids[i], r.model)
    ensures Candidates(st, r, ids).Ok?
    ensures var found := Candidates(st, r, ids).value;
            && |found| <= |ids|
            && (forall i :: 0 <= i < |found| ==> found[i].providerId in ids && found[i].providerId in st.providers && st.providers[found[i].providerId].enabled)
            && (forall i :: 0 <= i < |ids| && ids[i] in st.providers && st.providers[ids[i]].enabled ==>
                  exists j :: 0 <= j < |found| && found[j].providerId == ids[i])
    decreases |ids|
  {
    hide ProviderOk;
    hide RouteOk;
    if ids != [] {
      var init, last := ids[..|ids| - 1], ids[|ids| - 1];
      CandidatesOfLinked(rules, st, r, init);
      assert ids == init + [last];
      var before, found := Candidates(st, r, init).value, Candidates(st, r, ids).value;
      forall i | 0 <= i < |ids| && ids[i] in st.providers && st.providers[ids[i]].enabled
        ensures exists j :: 0 <= j < |found| && found[j].providerId == ids[i]
      {
        if i < |init| {
          assert init[i] == ids[i];
          var j :| 0 <= j < |before| && before[j].providerId == init[i];
          assert found[j] == before[j];
        } else {
          assert found[|found| - 1].providerId == last;
        }
      }
    }
  }

  predicate Enabled(st: State, id: string) {
    id in st.providers && st.providers[id].enabled
  }

  /** `at` picks the enabled ids out of a list, in order, and `found` describes their providers. */
  ghost predicate InOrder(st: State, r: Route, ids: seq<string>, at: seq<nat>, found: seq<Resolved>) {
    && |at| == |found|
    && (forall i, j :: 0 <= i < j < |at| ==> at[i] < at[j])
    && (forall j :: 0 <= j < |at| ==> at[j] < |ids| && Enabled(st, ids[at[j]]))
    && (forall i :: 0 <= i < |ids| && Enabled(st, ids[i]) ==> i in at)
    && (forall j :: 0 <= j < |found| ==>
          var p := st.providers[ids[at[j]]];
          && found[j].routeId == r.id && found[j].model == r.model
          && found[j].providerId == p.id && found[j].protocol == p.protocol
          && found[j].baseUrl == p.baseUrl && found[j].credentialRef == p.credentialRef)
  }

  /** The candidates are the enabled providers of the list, in its order. */
  lemma {:induction false} CandidatesInOrder(st: State, r: Route, ids: seq<string>) returns (at: seq<nat>)
    requires Candidates(st, r, ids).Ok?
    ensures InOrder(st, r, ids, at, Candidates(st, r, ids).value)
    decreases |ids|
  {
    at := [];
    if ids != [] {
      var init, last := ids[..|ids| - 1], ids[|ids| - 1];
      at := CandidatesInOrder(st, r, init);
      assert forall i :: 0 <= i < |init| ==> init[i] == ids[i];
      if Enabled(st, last) {
        at := at + [|init|];
      }
    }
  }

  /**
   In a registry that keeps its references a route resolves unless it is
   unknown, disabled, or all its providers are disabled: no other error exists.
   It resolves to its enabled providers, the primary first and then the fallbacks
   in their order, each with the route's model and its provider's own address.
   */
  lemma ResolvesExactlyWhen(rules: Rules, st: State, routeId: string)
    requires Integrity(rules, st)
    ensures var resolved := ResolveCandidates(st, routeId);
            if routeId !in st.routes then resolved == Err(RouteNotFound)
            else if !st.routes[routeId].enabled then resolved == Err(RouteDisabled)
            else
              var ids := [st.routes[routeId].providerId] + st.routes[routeId].FallbackIds();
              if forall id <- ids :: !Enabled(st, id) then resolved == Err(ProviderDisabled)
              else
                && resolved.Ok? && resolved.value != []
                && (forall j :: 0 <= j < |resolved.value| ==> resolved.value[j].providerId in ids && Enabled(st, resolved.value[j].providerId))
                && exists at :: InOrder(st, st.routes[routeId], ids, at, resolved.value)
  {
    hide ProviderOk;
    hide RouteOk;
    if routeId in st.routes && st.routes[routeId].enabled {
      hide InOrder;
      var r := st.routes[routeId];
      assert RouteLinked(st, r);
      CandidatesOfLinked(rules, st, r, ProviderIds(r));
      var at := CandidatesInOrder(st, r, ProviderIds(r));
      var found := Candidates(st, r, ProviderIds(r)).value;
      if found == [] {
        forall id | id in ProviderIds(r)
          ensures !Enabled(st, id)
        {
          var i :| 0 <= i < |ProviderIds(r)| && ProviderIds(r)[i] == id;
        }
      } else {
        assert found[0].providerId in ProviderIds(r);
      }
    }
  }

  // ----- the registry as the program runs it -----

  class InMemoryProviderRegistry {
    const rules: Rules
    var providers: map<string, Provider>
    var routes: map<string, Route>

    constructor (rules: Rules)
      ensures this.rules == rules && Value() == State(map[], map[])
    {
      this.rules := rules;
      providers, routes := map[], map[];
    }

    function Value(): State
      reads this
    {
      State(providers, routes)
    }

    method Register(input: Input<Provider>) returns (error: Option<RegistryError>)
      modifies this`providers
      ensures var spec := RegisterProvider(rules, old(Value()), input);
              if error.Some? then spec == Err(error.value) && Value() == old(Value()) else spec == Ok(Value())
    {
      var checked := CheckProvider(rules, input);
      if checked.Err? {
        return Some(checked.error);
      }
      if checked.value.id in providers {
        return Some(DuplicateProvider);
      }
      providers := providers[checked.value.id := checked.value];
      return None;
    }

    method Update(input: Input<Provider>) returns (error: Option<RegistryError>)
      modifies this`providers
      ensures var spec := UpdateProvider(rules, old(Value()), input);
              if error.Some? then spec == Err(error.value) && Value() == old(Value()) else spec == Ok(Value())
    {
      var checked := CheckProvider(rules, input);
      if checked.Err? {
        return Some(checked.error);
      }
      var p := checked.value;
      if p.id !in providers {
        return Some(ProviderNotFound);
      }
      var todo := routes.Keys;
      while todo != {}
        invariant todo <= routes.Keys
        invariant forall id <- routes.Keys - todo :: !(References(routes[id], p.id) && routes[id].model !in p.models)
        decreases |todo|
      {
        var id :| id in todo;
        if References(routes[id], p.id) && routes[id].model !in p.models {
          return Some(ModelNotAvailable);
        }
        todo := todo - {id};
      }
      providers := providers[p.id := p];
      return None;
    }

    method Remove(providerId: string) returns (error: Option<RegistryError>)
      modifies this`providers
      ensures var spec := RemoveProvider(old(Value()), providerId);
              if error.Some? then spec == Err(error.value) && Value() == old(Value()) else spec == Ok(Value())
    {
      if providerId !in providers {
        return Some(ProviderNotFound);
      }
      var todo := routes.Keys;
      while todo != {}
        invariant todo <= routes.Keys
        invariant forall id <- routes.Keys - todo :: !References(routes[id], providerId)
        decreases |todo|
      {
        var id :| id in todo;
        if References(routes[id], providerId) {
          return Some(ProviderHasRoutes);
        }
        todo := todo - {id};
      }
      providers := providers - {providerId};
      return None;
    }

    /** Every configured fallback must exist and serve the model; it may be disabled. */
    method CheckFallbacks(r: Route) returns (error: Option<RegistryError>)
      ensures error == FallbackProblem(Value(), r.model, r.FallbackIds())
    {
      var ids := r.FallbackIds();
      var i := 0;
      assert ids[0..] == ids;
      while i < |ids|
        invariant i <= |ids|
        invariant FallbackProblem(Value(), r.model, ids) == FallbackProblem(Value(), r.model, ids[i..])
      {
        if ids[i] !in providers {
          return Some(FallbackNotFound);
        }
        if r.model !in providers[ids[i]].models {
          return Some(FallbackModelNotAvailable);
        }
        assert ids[i..][1..] == ids[i + 1..];
        i := i + 1;
      }
      return None;
    }

    /** `registerRoute` and `updateRoute` differ only in whether the id must be free or taken. */
    method Put(input: Input<Route>, isNew: bool) returns (error: Option<RegistryError>)
      modifies this`routes
      ensures var spec := PutRoute(rules, old(Value()), input, isNew);
              if error.Some? then spec == Err(error.value) && Value() == old(Value()) else spec == Ok(Value())
    {
      var checked := CheckRoute(rules, input);
      if checked.Err? {
        return Some(checked.error);
      }
      var r := checked.value;
      if isNew && r.id in routes {
        return Some(DuplicateRoute);
      }
      if !isNew && r.id !in routes {
        return Some(RouteNotFound);
      }
      if r.providerId !in providers {
        return Some(ProviderNotFound);
      }
      var primary := providers[r.providerId];
      if r.model !in primary.models {
        return Some(ModelNotAvailable);
      }
      if !primary.enabled && r.enabled {
        return Some(ProviderDisabled);
      }
      error := CheckFallbacks(r);
      if error.None? {
        routes := routes[r.id := r];
      }
    }

    method Drop(routeId: string) returns (error: Option<RegistryError>)
      modifies this`routes
      ensures var spec := RemoveRoute(old(Value()), routeId);
              if error.Some? then spec == Err(error.value) && Value() == old(Value()) else spec == Ok(Value())
    {
      if routeId !in routes {
        return Some(RouteNotFound);
      }
      routes := routes - {routeId};
      return None;
    }

    /** The ordered candidates of a route. */
    method Resolve(routeId: string) returns (found: Result<seq<Resolved>, RegistryError>)
      ensures found == ResolveCandidates(Value(), routeId)
    {
      if routeId !in routes {
        return Err(RouteNotFound);
      }
      var r := routes[routeId];
      if !r.enabled {
        return Err(RouteDisabled);
      }
      var ids := ProviderIds(r);
      var candidates: seq<Resolved> := [];
      for i := 0 to |ids|
        invariant Candidates(Value(), r, ids[..i]) == Ok(candidates)
      {
        assert ids[..i + 1][..i] == ids[..i];
        CandidatesGrow(Value(), r, ids, i);
        var id := ids[i];
        if id !in providers {
          return Err(if id == r.providerId then ProviderNotFound else FallbackNotFound);
        }
        var p := providers[id];
        if r.model !in p.models {
          return Err(if id == r.providerId then InvalidSnapshot else FallbackModelNotAvailable);
        }
        if p.enabled {
          candidates := candidates + [ResolvedBy(r, p)];
        }
      }
      assert ids[..|ids|] == ids;
      if candidates == [] {
        return Err(ProviderDisabled);
      }
      return Ok(candidates);
    }
  }

  /** The first error is the error. */
  lemma {:induction false} CandidatesGrow(st: State, r: Route, ids: seq<string>, i: nat)
    requires i < |ids|
    ensures Candidates(st, r, ids[..i + 1]).Err? ==> Candidates(st, r, ids) == Candidates(st, r, ids[..i + 1])
    decreases |ids|
  {
    if i + 1 == |ids| {
      assert ids[..i + 1] == ids;
    } else {
      assert ids[..|ids| - 1][..i + 1] == ids[..i + 1];
      CandidatesGrow(st, r, ids[..|ids| - 1], i);
    }
  }
}
