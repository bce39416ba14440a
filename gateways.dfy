/** The aggregation behind the spoofed route list of the istio product:
    load a configuration document, normalise its root route, name the
    child routes, append the root after them and emit one creation record
    per route; any failure on the way yields no records at all. */
module Gateways {

  datatype Option<+T> = None | Some(value: T) {
    function GetOr(default: T): T {
      match this
      case Some(v) => v
      case None => default
    }
  }

  /** A route's `name`: absent (undefined) or a string. */
  type Name = Option<string>

  /** `config.gateway`: a mapping of settings the aggregation never looks into. */
  type Gateway = map<string, string>

  /** One route of the document. The root route and every child route are
      objects of this class; `routes` is the child array, absent when the
      document has none. An entry of the array may be null (a YAML `- ~`
      or an empty `-` item). */
  class Route {
    var name: Name
    var routes: Option<seq<Route?>>

    constructor (name: Name, routes: Option<seq<Route?>>)
      ensures this.name == name && this.routes == routes
    {
      this.name := name;
      this.routes := routes;
    }
  }

  /** The loaded configuration document. `route` is null when the document
      has no root route. */
  class Config {
    var gateway: Option<Gateway>
    var route: Route?

    constructor (gateway: Option<Gateway>, route: Route?)
      ensures this.gateway == gateway && this.route == route
    {
      this.gateway := gateway;
      this.route := route;
    }

    /** The child list `config.route.routes`, or the empty list when the
        root or its child array is absent. */
    function Children(): seq<Route?>
      reads this, route
    {
      if route != null && route.routes.Some? then route.routes.value else []
    }

    /** A freshly parsed document is a tree: the root is not one of its own
        children and no child object occurs twice. */
    ghost predicate TreeShaped()
      reads this, route
    {
      route != null ==> route !in Children() && Distinct(Children())
    }

    /** The objects the aggregation may write to. */
    ghost function Footprint(): set<object>
      reads this, route
    {
      {this} + (if route != null then {route} else {}) + set r: Route | r in Children()
    }

    /** `config.gateway = config.gateway || {}`. */
    method DefaultGateway()
      modifies this`gateway
      ensures gateway == Some(old(gateway).GetOr(map[]))
    {
      if gateway.None? {
        gateway := Some(map[]);
      }
    }
  }

  /** No route object occurs twice among the entries (null entries aside). */
  ghost predicate Distinct(rs: seq<Route?>) {
    forall i, j :: 0 <= i < j < |rs| && rs[i] != null ==> rs[i] != rs[j]
  }

  /** What the naming step can see of one child entry. */
  datatype Entry = Missing | Present(name: Name)

  function EntriesOf(rs: seq<Route?>): seq<Entry>
    reads rs
  {
    seq(|rs|, i requires 0 <= i < |rs| reads rs => if rs[i] == null then Missing else Present(rs[i].name))
  }

  /** What the naming step decides for the child entries: the names the
      present children carry afterwards, by position, or an exception. */
  datatype NamingResult = Named(names: seq<Name>) | Threw

  /** The naming step is an opaque function of the child entries. */
  type NamingStep = seq<Entry> -> NamingResult

  /** A naming step that returns names returns one per child. */
  ghost predicate KeepsLength(naming: NamingStep) {
    forall ns :: naming(ns).Named? ==> |naming(ns).names| == |ns|
  }

  /** `setDefaultRouteNames(routes)`: the step decides on names from the
      child entries and writes them into the present children, or throws
      before writing anything. */
  method SetDefaultRouteNames(kids: seq<Route?>, naming: NamingStep) returns (ok: bool)
    requires KeepsLength(naming)
    requires Distinct(kids)
    modifies set r: Route | r in kids
    ensures ok == naming(old(EntriesOf(kids))).Named?
    ensures ok ==> forall i :: 0 <= i < |kids| && kids[i] != null ==>
      kids[i].name == naming(old(EntriesOf(kids))).names[i]
    ensures !ok ==> forall i :: 0 <= i < |kids| && kids[i] != null ==> kids[i].name == old(kids[i].name)
    ensures forall i :: 0 <= i < |kids| && kids[i] != null ==> kids[i].routes == old(kids[i].routes)
  {
    var outcome := naming(EntriesOf(kids));
    if outcome.Threw? {
      return false;
    }
    var names := outcome.names;
    var k := 0;
    while k < |kids|
      invariant 0 <= k <= |kids|
      invariant forall i :: 0 <= i < k && kids[i] != null ==> kids[i].name == names[i]
      invariant forall i :: k <= i < |kids| && kids[i] != null ==> kids[i].name == old(kids[i].name)
      invariant forall i :: 0 <= i < |kids| && kids[i] != null ==> kids[i].routes == old(kids[i].routes)
    {
      if kids[k] != null {
        kids[k].name := names[k];
      }
      k := k + 1;
    }
    return true;
  }

  /** The payload of `dispatch('cluster/create', …)` for one route. */
  datatype Record<S> = Record(id: Name, spec: Route, kind: string, secret: S)

  /** `routes.map(route => dispatch('cluster/create', {id: route.name,
      spec: route, type, secret}))`, with creation taken as the record it is
      given: one record per route, in the same order. */
  function Emit<S>(routes: seq<Route>, kind: string, secret: S): (records: seq<Record<S>>)
    reads routes
    ensures |records| == |routes|
    ensures forall i :: 0 <= i < |routes| ==>
      records[i] == Record(routes[i].name, routes[i], kind, secret)
  {
    if routes == [] then []
    else [Record(routes[0].name, routes[0], kind, secret)] + Emit(routes[1..], kind, secret)
  }

  /** What `loadConfig` resolves to: the document and its secret, or a
      failure (a rejected promise, or no document to destructure). */
  datatype Load<S> = Loaded(config: Config, secret: S) | LoadFailed

  /** `getAllGateways`, with the loader's outcome, the naming step and the
      constants `ROOT_NAME` and the spoofed route type tag as parameters. */
  method GetAllGateways<S>(load: Load<S>, naming: NamingStep, rootName: string, kind: string)
    returns (records: seq<Record<S>>)
    requires KeepsLength(naming)
    requires load.Loaded? ==> load.config.TreeShaped()
    modifies if load.Loaded? then load.config.Footprint() else {}
    // a failed load yields nothing
    ensures load.LoadFailed? ==> records == []
    // the gateway is defaulted, even when a later step fails
    ensures load.Loaded? ==>
      && load.config.gateway == Some(old(load.config.gateway).GetOr(map[]))
      && load.config.route == old(load.config.route)
    // a missing root route fails the whole call
    ensures load.Loaded? && old(load.config.route) == null ==> records == []
    ensures load.Loaded? && old(load.config.route) != null ==>
      var root: Route := old(load.config.route);
      var kids := old(load.config.Children());
      var outcome := naming(old(EntriesOf(kids)));
      && root.name == Some(rootName)
      && (forall i :: 0 <= i < |kids| && kids[i] != null ==> kids[i].routes == old(kids[i].routes))
      && (outcome.Threw? ==>
            && records == []
            && root.routes == old(root.routes)
            && forall i :: 0 <= i < |kids| && kids[i] != null ==> kids[i].name == old(kids[i].name))
      && (outcome.Named? ==>
            // the children keep their order and carry the names the step chose
            && (forall i :: 0 <= i < |kids| && kids[i] != null ==> kids[i].name == outcome.names[i])
            // the push is into the document's own child array, when it has one
            && root.routes == (if old(root.routes).Some? then Some(kids + [root]) else None)
            // a null entry makes `route.name` throw inside the map
            && (null in kids ==> records == [])
            // otherwise one record per child, then the root's with the fixed name
            && (null !in kids ==>
                  && |records| == |kids| + 1
                  && (forall i :: 0 <= i < |kids| ==>
                        records[i] == Record(outcome.names[i], kids[i], kind, load.secret))
                  && records[|kids|] == Record(Some(rootName), root, kind, load.secret)))
    // with no child array, the only record is the root's
    ensures load.Loaded? && old(load.config.route) != null &&
            old(load.config.route.routes).None? && naming([]).Named? ==>
      records == [Record(Some(rootName), load.config.route, kind, load.secret)]
    // whenever records are returned, the root's comes last
    ensures records != [] ==> records[|records| - 1].id == Some(rootName)
  {
    if load.LoadFailed? {
      return [];
    }
    var config, secret := load.config, load.secret;
    config.DefaultGateway();
    if config.route == null {
      // `config.route.name = …` throws a TypeError
      return [];
    }
    var root: Route := config.route;
    ghost var kids := config.Children();
    root.name := Some(rootName);
    var routes: seq<Route?> := if root.routes.Some? then root.routes.value else [];
    assert routes == kids;
    var ok := SetDefaultRouteNames(routes, naming);
    if !ok {
      return [];
    }
    if root.routes.Some? {
      root.routes := Some(routes + [root]);
    }
    routes := routes + [root];
    if null in routes {
      // `route.name` on a null entry throws a TypeError inside the map
      return [];
    }
    var present: seq<Route> := routes;
    records := Emit(present, kind, secret);
  }
}
