/**
 * `Router`: the route tree plus the two per-request options, and the
 * decision `route` makes for a request path and method.
 */
module Routing {
  import opened Wrappers
  import opened Text
  import opened Http
  import opened Tree
  import opened Lookup
  import opened Insertion
  import opened InsertionFacts

  /**
   * `RouterResult`. The methods of `Options` come from a hash map's keys and
   * are in no particular order, so they are a multiset.
   */
  datatype RouterResult =
    | Found(handler: HandlerId, params: RouteParameters)
    | PathNotFound
    | MethodNotFound
    | Options(methods: multiset<Method>)

  /**
   * The path the tree is asked for: leading `/` removed always, trailing
   * `/` removed too when trailing slashes are redirected.
   */
  function RequestPath(redirectTrailing: bool, path: string): (p: string)
    ensures !StartsWith(p, '/')
    ensures redirectTrailing ==> !EndsWith(p, '/')
    ensures !redirectTrailing ==> p == TrimStart(path, '/')
  {
    if redirectTrailing then Trim(path, '/') else TrimStart(path, '/')
  }

  class Router {
    const tree: RouteTree
    var redirectTrailing: bool
    var handleOptions: bool

    /** `Router::default` (and `Router::new`): no trailing-slash redirect, OPTIONS answered. */
    constructor ()
      ensures fresh(tree) && tree.root == NewStaticNode()
      ensures !redirectTrailing && handleOptions
    {
      tree := new RouteTree();
      redirectTrailing := false;
      handleOptions := true;
    }

    /** `redirect_trailing_slash`. */
    method RedirectTrailingSlash(opt: bool)
      modifies this
      ensures redirectTrailing == opt && handleOptions == old(handleOptions)
    {
      redirectTrailing := opt;
    }

    /** `handle_options`. */
    method HandleOptions(opt: bool)
      modifies this
      ensures handleOptions == opt && redirectTrailing == old(redirectTrailing)
    {
      handleOptions := opt;
    }

    /** `add_wrapped`: registers the handler for the methods on the pattern. */
    method AddWrapped(methods: seq<Method>, pattern: string, handler: HandlerId) returns (conflict: Option<Conflict>)
      modifies tree
      ensures var a := AddedRoute(old(tree.root), methods, pattern, handler);
        && (a.Ok? ==> conflict.None? && tree.root == a.value)
        && (a.Err? ==> conflict == Some(a.error))
    {
      conflict := tree.AddRoute(methods, pattern, handler);
    }

    /**
     * `add`: the handler is wrapped before registration; handlers being
     * identities here, this is `AddWrapped`.
     */
    method Add(methods: seq<Method>, pattern: string, handler: HandlerId) returns (conflict: Option<Conflict>)
      modifies tree
      ensures var a := AddedRoute(old(tree.root), methods, pattern, handler);
        && (a.Ok? ==> conflict.None? && tree.root == a.value)
        && (a.Err? ==> conflict == Some(a.error))
    {
      conflict := AddWrapped(methods, pattern, handler);
    }

    /**
     * `route`: an unknown path is `PathNotFound`; on a known path an OPTIONS
     * request (when OPTIONS is handled) lists the path's methods plus
     * OPTIONS, whether or not OPTIONS has a handler of its own; otherwise
     * the method's handler is `Found` with the path's parameters, or the
     * method is not there.
     */
    function Route(path: string, m: Method): (r: RouterResult)
      reads this, tree
      ensures var found := RouteTo(tree.root, RequestPath(redirectTrailing, path));
        && (r.PathNotFound? <==> found.None?)
        && (r.Options? <==> found.Some? && handleOptions && m == OPTIONS)
        && (r.Options? ==> r.methods == multiset(found.value.0.Keys) + multiset{OPTIONS})
        && (r.Found? <==> found.Some? && !(handleOptions && m == OPTIONS) && m in found.value.0)
        && (r.Found? ==> r.handler == found.value.0[m] && r.params == found.value.1)
        && (r.MethodNotFound? <==>
              found.Some? && !(handleOptions && m == OPTIONS) && m !in found.value.0)
    {
      match RouteTo(tree.root, RequestPath(redirectTrailing, path))
      case None => PathNotFound
      case Some((mmap, params)) =>
        if handleOptions && m == OPTIONS then
          Options(multiset(mmap.Keys) + multiset{OPTIONS})
        else if m in mmap then Found(mmap[m], params)
        else MethodNotFound
    }
  }

  /** Leading slashes never matter. */
  lemma LeadingSlashIgnored(router: Router, path: string, m: Method)
    ensures router.Route("/" + path, m) == router.Route(path, m)
  {
    assert "/" + path == ['/'] + path;
    TrimIgnoresLeading(path, '/');
    TrimStartIgnoresLeading(path, '/');
    SamePathSameRoute(router, "/" + path, path, m);
  }

  lemma SamePathSameRoute(router: Router, p: string, q: string, m: Method)
    requires RequestPath(router.redirectTrailing, p) == RequestPath(router.redirectTrailing, q)
    ensures router.Route(p, m) == router.Route(q, m)
  {
  }

  /** With trailing-slash redirection, a trailing slash does not matter either. */
  lemma TrailingSlashIgnored(router: Router, path: string, m: Method)
    requires router.redirectTrailing
    ensures router.Route(path + "/", m) == router.Route(path, m)
  {
    TrimIgnoresTrailing(path, '/');
    SamePathSameRoute(router, path + "/", path, m);
  }

  /**
   * An OPTIONS request to a known path (OPTIONS being handled) lists each of
   * the path's methods once and OPTIONS once more, so one entry more than
   * the path has methods.
   */
  lemma OptionsListsMethods(router: Router, path: string)
    requires router.handleOptions
    requires RouteTo(router.tree.root, RequestPath(router.redirectTrailing, path)).Some?
    ensures var mmap := RouteTo(router.tree.root, RequestPath(router.redirectTrailing, path)).value.0;
      var r := router.Route(path, OPTIONS);
      && r.Options?
      && |r.methods| == |mmap.Keys| + 1
      && (forall m :: m in mmap ==> m in r.methods)
      && r.methods[OPTIONS] == (if OPTIONS in mmap then 2 else 1)
  {
    var mmap := RouteTo(router.tree.root, RequestPath(router.redirectTrailing, path)).value.0;
    var r := router.Route(path, OPTIONS);
    assert r.methods == multiset(mmap.Keys) + multiset{OPTIONS};
    MultisetOfSetSize(mmap.Keys);
    assert multiset(mmap.Keys)[OPTIONS] == if OPTIONS in mmap then 1 else 0;
  }

  lemma {:induction false} MultisetOfSetSize<T>(s: set<T>)
    ensures |multiset(s)| == |s|
    decreases |s|
  {
    if s != {} {
      var x :| x in s;
      MultisetOfSetSize(s - {x});
      assert multiset(s) == multiset(s - {x}) + multiset{x};
    }
  }

  /**
   * A literal pattern registered with `add` on a valid tree is then routed
   * to its handler for each of its methods (OPTIONS aside when OPTIONS is
   * answered by the router), with no parameters, whichever way the request
   * writes the leading slashes. A pattern with a trailing `/` is found this
   * way only when the router redirects trailing slashes; without that, see
   * `Scenarios.TrailingSlashPatternMissed`.
   */
  lemma RegisteredLiteralFound(
    router: Router, before: StaticNode, methods: seq<Method>, pattern: string, handler: HandlerId, m: Method)
    requires Valid(before.node)
    requires Trim(pattern, '/') != "" && Literal(Split(Trim(pattern, '/'), '/'))
    requires !EndsWith(pattern, '/') || router.redirectTrailing
    requires AddedRoute(before, methods, pattern, handler).Ok?
    requires router.tree.root == AddedRoute(before, methods, pattern, handler).value
    requires m in methods && !(router.handleOptions && m == OPTIONS)
    ensures router.Route(pattern, m) == Found(handler, NoParameters())
  {
    LiteralRouteRegistered(before, methods, pattern, handler);
    if !router.redirectTrailing {
      TrimWithoutTrailing(pattern);
    }
  }

  /** For a pattern with no trailing `/`, trimming both ends is trimming the start. */
  lemma TrimWithoutTrailing(s: string)
    requires !EndsWith(s, '/')
    ensures Trim(s, '/') == TrimStart(s, '/')
  {
    var t := TrimStart(s, '/');
    if t != [] {
      assert t[|t| - 1] == s[|s| - 1];
    }
  }
}
