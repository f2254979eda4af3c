/**
 * The route descriptor of an HTTP routing layer: one registered endpoint with
 * its path pattern, the request methods it answers, its handler, its bound
 * path parameters and its middleware, configured through a fluent builder
 * (lib/httpRouting.ts).
 */
module Routing {
  import opened Wrappers

  /** The request methods a route may answer; each member's string value is its own name. */
  datatype RequestMethod = GET | POST | PUT | DELETE | PATCH | ALL | OPTIONS | HEAD
  {
    /** The wire token the member stands for. */
    function Token(): string
    {
      match this
      case GET => "GET"
      case POST => "POST"
      case PUT => "PUT"
      case DELETE => "DELETE"
      case PATCH => "PATCH"
      case ALL => "ALL"
      case OPTIONS => "OPTIONS"
      case HEAD => "HEAD"
    }
  }

  /** Comparing tokens is comparing methods: no two members share a string value. */
  lemma TokenInjective(a: RequestMethod, b: RequestMethod)
    ensures a.Token() == b.Token() <==> a == b
  {
  }

  /** A bound path parameter; a `None` value stands for `null`. */
  datatype Parameter = Parameter(name: string, value: Option<string>)

  /** A named bundle of middleware. */
  datatype MiddlewareGroup<M> = MiddlewareGroup(name: string, handlers: seq<M>)

  /** The one error of the core: a parameter of that name is already bound. */
  datatype RoutingError = DuplicateParameter(name: string)
  {
    /** The error's message; the offending name can be read back from it. */
    function Message(): (m: string)
      ensures |m| == |name| + 25
      ensures m[10..10 + |name|] == name
    {
      "Parameter " + name + " already exists"
    }
  }

  /** The name a route carries until one is given. */
  const Anonymous: string := "<anonymous>"

  // ---------------------------------------------------------------------------
  // Method inference at construction
  // ---------------------------------------------------------------------------

  /**
   * The methods a route answers once HEAD has been inferred from GET: HEAD is
   * appended when GET is present and HEAD is not.
   */
  function WithHead(ms: seq<RequestMethod>): (r: seq<RequestMethod>)
    ensures |ms| <= |r| <= |ms| + 1 && r[..|ms|] == ms
    ensures |r| == |ms| + 1 ==> r[|ms|] == HEAD
    ensures GET in r <==> GET in ms
    ensures HEAD in r <==> HEAD in ms || GET in ms
    ensures GET !in ms || HEAD in ms ==> r == ms
    ensures forall m :: m != HEAD ==> multiset(r)[m] == multiset(ms)[m]
    ensures multiset(r)[HEAD] <= 1 <==> multiset(ms)[HEAD] <= 1
  {
    if GET in ms && HEAD !in ms then ms + [HEAD] else ms
  }

  /** Inference is a normalisation: applying it to its own result changes nothing. */
  lemma WithHeadIdempotent(ms: seq<RequestMethod>)
    ensures WithHead(WithHead(ms)) == WithHead(ms)
  {
  }

  // ---------------------------------------------------------------------------
  // Parameters and middleware groups as values
  // ---------------------------------------------------------------------------

  /** Some binding in `ps` is named `key`. */
  predicate Bound(ps: seq<Parameter>, key: string)
  {
    exists i :: 0 <= i < |ps| && ps[i].name == key
  }

  /** No two bindings in `ps` share a name. */
  predicate DistinctNames(ps: seq<Parameter>)
  {
    forall i, j :: 0 <= i < j < |ps| ==> ps[i].name != ps[j].name
  }

  /** Some group in `gs` is named `name`. */
  predicate GroupDeclared<M>(gs: seq<MiddlewareGroup<M>>, name: string)
  {
    exists i :: 0 <= i < |gs| && gs[i].name == name
  }

  /** A sequence of bindings binds no name at all exactly when it is empty. */
  lemma {:induction false} NothingBoundIffEmpty(ps: seq<Parameter>)
    ensures (forall k :: !Bound(ps, k)) <==> ps == []
  {
    if ps != [] {
      assert Bound(ps, ps[0].name);
    }
  }

  /**
   * The effect of one WithParameter call on the bindings: refused when the
   * name is bound already, otherwise the new binding goes at the end.
   */
  function Bind(ps: seq<Parameter>, name: string, value: Option<string>): (r: Result<seq<Parameter>, RoutingError>)
    ensures r.Failure? <==> Bound(ps, name)
    ensures r.Failure? ==> r.error == DuplicateParameter(name)
    ensures r.Success? ==> r.value == ps + [Parameter(name, value)]
    ensures r.Success? ==> forall k :: Bound(r.value, k) <==> Bound(ps, k) || k == name
    ensures r.Success? && DistinctNames(ps) ==> DistinctNames(r.value)
  {
    if Bound(ps, name) then
      Failure(DuplicateParameter(name))
    else
      var ps' := ps + [Parameter(name, value)];
      assert forall k :: Bound(ps', k) <==> Bound(ps, k) || k == name by {
        forall k ensures Bound(ps', k) <==> Bound(ps, k) || k == name {
          if Bound(ps, k) {
            var i :| 0 <= i < |ps| && ps[i].name == k;
            assert ps'[i].name == k;
          }
          if k == name {
            assert ps'[|ps|].name == k;
          }
        }
      }
      Success(ps')
  }

  /**
   * The result of a builder chain of WithParameter calls on one route: the
   * bindings the route holds afterwards and the error that aborted the chain,
   * if any. The route is mutated in place, so the bindings made before the
   * failing call stay.
   */
  datatype ChainOutcome = ChainOutcome(parameters: seq<Parameter>, error: Option<RoutingError>)

  /** Runs the calls `calls` (name and value each) in order, stopping at the first refused one. */
  function Chain(ps: seq<Parameter>, calls: seq<Parameter>): (c: ChainOutcome)
    ensures |ps| <= |c.parameters| <= |ps| + |calls|
    ensures c.parameters[..|ps|] == ps
    decreases |calls|
  {
    if calls == [] then
      ChainOutcome(ps, None)
    else
      match Bind(ps, calls[0].name, calls[0].value)
      case Failure(e) => ChainOutcome(ps, Some(e))
      case Success(ps') => Chain(ps', calls[1..])
  }

  /**
   * A chain keeps, in call order, every call before the first refused one;
   * the error names that call, whose name was bound at that point.
   */
  lemma {:induction false} ChainStopsAtFirstDuplicate(ps: seq<Parameter>, calls: seq<Parameter>)
    ensures var c := Chain(ps, calls);
      var n := |c.parameters| - |ps|;
      && c.parameters == ps + calls[..n]
      && (c.error.None? <==> n == |calls|)
      && (c.error.Some? ==>
            && c.error.value == DuplicateParameter(calls[n].name)
            && Bound(c.parameters, calls[n].name))
    decreases |calls|
  {
    if calls != [] {
      match Bind(ps, calls[0].name, calls[0].value)
      case Failure(e) =>
      case Success(ps') =>
        ChainStopsAtFirstDuplicate(ps', calls[1..]);
        var n := |Chain(ps', calls[1..]).parameters| - |ps'|;
        assert ps' + calls[1..][..n] == ps + calls[..n + 1];
    }
  }

  /** Whatever a chain does, it never binds one name twice. */
  lemma {:induction false} ChainPreservesDistinct(ps: seq<Parameter>, calls: seq<Parameter>)
    requires DistinctNames(ps)
    ensures DistinctNames(Chain(ps, calls).parameters)
    decreases |calls|
  {
    if calls != [] {
      match Bind(ps, calls[0].name, calls[0].value)
      case Failure(e) =>
      case Success(ps') => ChainPreservesDistinct(ps', calls[1..]);
    }
  }

  /**
   * On a route whose bindings are distinct, a chain succeeds exactly when the
   * names it binds are distinct from those and from each other; it then keeps
   * every binding in call order, and each of the names is bound.
   */
  lemma {:induction false} ChainSucceedsIff(ps: seq<Parameter>, calls: seq<Parameter>)
    requires DistinctNames(ps)
    ensures Chain(ps, calls).error.None? <==> DistinctNames(ps + calls)
    ensures DistinctNames(ps + calls) ==>
      && Chain(ps, calls).parameters == ps + calls
      && forall i :: 0 <= i < |calls| ==> Bound(Chain(ps, calls).parameters, calls[i].name)
    decreases |calls|
  {
    if calls == [] {
      assert ps + calls == ps;
    } else {
      var c := calls[0];
      match Bind(ps, c.name, c.value)
      case Failure(e) =>
        var i :| 0 <= i < |ps| && ps[i].name == c.name;
        assert (ps + calls)[i].name == (ps + calls)[|ps|].name;
      case Success(ps') =>
        assert ps' + calls[1..] == ps + calls;
        ChainSucceedsIff(ps', calls[1..]);
        if DistinctNames(ps + calls) {
          forall i | 0 <= i < |calls|
            ensures Bound(Chain(ps, calls).parameters, calls[i].name)
          {
            assert (ps + calls)[|ps| + i] == calls[i];
          }
        }
    }
  }

  // ---------------------------------------------------------------------------
  // The route descriptor
  // ---------------------------------------------------------------------------

  /**
   * The array of methods a caller hands to the constructor. The route keeps a
   * reference to this very object, so the HEAD the constructor appends shows
   * in the caller's array too.
   */
  class MethodList {
    var items: seq<RequestMethod>

    constructor (items: seq<RequestMethod>)
      ensures this.items == items
    {
      this.items := items;
    }
  }

  /** The whole state of a route, as a value. */
  datatype Route<H, M> = Route(
    path: string,
    methods: seq<RequestMethod>,
    action: H,
    isFallback: bool,
    name: string,
    middleware: seq<M>,
    middlewareGroups: seq<MiddlewareGroup<M>>,
    parameters: seq<Parameter>)

  /** One registered endpoint; `H` is the handler and `M` the middleware type. */
  class HttpRouting<H, M> {
    var path: string
    var methods: MethodList
    var action: H
    var isFallback: bool
    var name: string
    var middleware: seq<M>
    var middlewareGroups: seq<MiddlewareGroup<M>>
    var parameters: seq<Parameter>

    /** Parameter names are pairwise distinct. */
    ghost predicate Valid()
      reads this
    {
      DistinctNames(parameters)
    }

    /** A route answering GET answers HEAD too. */
    ghost predicate HeadInferred()
      reads this, methods
    {
      GET in methods.items ==> HEAD in methods.items
    }

    ghost function View(): Route<H, M>
      reads this, methods
    {
      Route(path, methods.items, action, isFallback, name, middleware, middlewareGroups, parameters)
    }

    /**
     * Stores `path` and `action`, keeps a reference to the caller's `methods`
     * and appends HEAD to it when it holds GET and not HEAD; everything else
     * takes its default.
     */
    constructor (path: string, methods: MethodList, action: H)
      modifies methods
      ensures this.methods == methods && methods.items == WithHead(old(methods.items))
      ensures View() == Route(path, WithHead(old(methods.items)), action, false, Anonymous, [], [], [])
      ensures Valid() && HeadInferred()
    {
      this.path := path;
      this.action := action;
      this.methods := methods;
      isFallback := false;
      name := Anonymous;
      middleware := [];
      middlewareGroups := [];
      parameters := [];
      new;
      if GET in methods.items && HEAD !in methods.items {
        methods.items := methods.items + [HEAD];
      }
    }

    /** As written: true exactly when the route binds NO parameter. */
    function HasParameters(): (b: bool)
      reads this
      ensures b <==> forall k :: !Bound(parameters, k)
    {
      NothingBoundIffEmpty(parameters);
      |parameters| == 0
    }

    /** What the name promises: true exactly when some parameter is bound. */
    function HasAnyParameter(): (b: bool)
      reads this
      ensures b <==> exists k :: Bound(parameters, k)
    {
      NothingBoundIffEmpty(parameters);
      |parameters| != 0
    }

    /** Scans the bindings for one named `key`. */
    method HasParameter(key: string) returns (b: bool)
      ensures b == Bound(parameters, key)
    {
      for i := 0 to |parameters|
        invariant forall j :: 0 <= j < i ==> parameters[j].name != key
      {
        if parameters[i].name == key {
          return true;
        }
      }
      return false;
    }

    /**
     * Binds `name` to `value` and returns this route for chaining, or fails
     * with the duplicate's name, changing nothing, when `name` is bound already.
     */
    method WithParameter(name: string, value: Option<string>) returns (r: Result<HttpRouting<H, M>, RoutingError>)
      modifies this
      ensures var b := Bind(old(parameters), name, value);
        && (b.Success? ==> r == Success(this) && View() == old(View()).(parameters := b.value))
        && (b.Failure? ==> r == Failure(b.error) && View() == old(View()))
      ensures methods == old(methods)
      ensures old(Valid()) ==> Valid()
    {
      var taken := HasParameter(name);
      if taken {
        return Failure(DuplicateParameter(name));
      }
      parameters := parameters + [Parameter(name, value)];
      return Success(this);
    }

    /** Names the route and returns it for chaining. */
    method WithName(name: string) returns (r: HttpRouting<H, M>)
      modifies this
      ensures r == this && View() == old(View()).(name := name)
      ensures methods == old(methods)
    {
      this.name := name;
      return this;
    }

    /** Marks the route as a fallback and returns it for chaining; a second call changes nothing. */
    method WithFallback() returns (r: HttpRouting<H, M>)
      modifies this
      ensures r == this && View() == old(View()).(isFallback := true)
      ensures old(isFallback) ==> View() == old(View())
      ensures methods == old(methods)
    {
      isFallback := true;
      return this;
    }

    /** The handler the route was constructed with. */
    function GetHandler(): (h: H)
      reads this
      ensures h == View().action
    {
      action
    }

    /** Scans the middleware groups for one named `name`. */
    method HasMiddlewareGroups(name: string) returns (b: bool)
      ensures b == GroupDeclared(middlewareGroups, name)
    {
      for i := 0 to |middlewareGroups|
        invariant forall j :: 0 <= j < i ==> middlewareGroups[j].name != name
      {
        if middlewareGroups[i].name == name {
          return true;
        }
      }
      return false;
    }
  }

  /** As written, HasParameters reports false on a route that does bind a parameter. */
  lemma HasParametersInverted<H, M>(route: HttpRouting<H, M>, key: string)
    requires Bound(route.parameters, key)
    ensures !route.HasParameters() && route.HasAnyParameter()
  {
  }

  /** The end-to-end registration of a `users.show` route, from the caller's side. */
  method UsersShowScenario<H, M>(handler: H)
  {
    var list := new MethodList([GET]);
    var route := new HttpRouting<H, M>("/users/:id", list, handler);
    assert list.items == [GET, HEAD];
    assert route.name == Anonymous && !route.isFallback && route.GetHandler() == handler;

    var r := route.WithParameter("id", None);
    assert r == Success(route);
    assert route.parameters == [Parameter("id", None)];

    var same := route.WithName("users.show");
    assert same == route && route.name == "users.show";
    assert route.methods == list;

    assert Bound(route.parameters, "id") by {
      assert route.parameters[0].name == "id";
    }
    r := route.WithParameter("id", Some("2"));
    assert r == Failure(DuplicateParameter("id"));
    assert route.parameters == [Parameter("id", None)] && route.name == "users.show";

    same := route.WithFallback();
    same := route.WithFallback();
    assert route.isFallback;

    var hasAuth := route.HasMiddlewareGroups("auth");
    assert !hasAuth;
    route.middlewareGroups := route.middlewareGroups + [MiddlewareGroup("auth", [])];
    hasAuth := route.HasMiddlewareGroups("auth");
    assert route.middlewareGroups[0].name == "auth";
    assert hasAuth;
  }
}
