/**
 * Route registration: `RouteTree::add_route` and the insertion code below it.
 *
 * Each step of the source (`StaticNode::insert`, `ParameterNode::insert`,
 * `set`, `StaticChildren::insert`, `ParameterChildren::insert`) is a method
 * that works the way the source does: the parts iterator is consumed one
 * segment at a time, `priority` is bumped, the method map is filled in a
 * loop, an existing child is located with a linear scan, and a new child is
 * pushed and the list re-sorted. Each method is proved to compute a function
 * of its inputs (`NodeInserted` and friends), and the properties of
 * insertion are proved about those functions.
 *
 * The panic on a parameter re-registered under a different name is the
 * `Err(Conflict)` outcome.
 */
module Insertion {
  import opened Wrappers
  import opened Text
  import opened Http
  import opened Children
  import opened Tree

  /** The methods being registered and their handler, shared by the whole insertion. */
  datatype InsertionContext = InsertionContext(methods: seq<Method>, handler: HandlerId)

  /** The panic of a parameter declared with the same type but another name. */
  datatype Conflict = OverlappingNames(given: string, existing: string)

  /**
   * The map `set` leaves behind: every given method routes to the handler,
   * every other method keeps the handler it had.
   */
  function Registered(routes: MethodMap, ctx: InsertionContext): (r: MethodMap)
    ensures r.Keys == routes.Keys + (set m | m in ctx.methods)
    ensures forall m :: m in ctx.methods ==> r[m] == ctx.handler
    ensures forall m :: m in routes && m !in ctx.methods ==> r[m] == routes[m]
  {
    routes + map m | m in ctx.methods :: ctx.handler
  }

  /** `StaticNode::set` / `ParameterNode::set`: one map insertion per given method. */
  method SetRoutes(routes: MethodMap, ctx: InsertionContext) returns (r: MethodMap)
    ensures r == Registered(routes, ctx)
  {
    r := routes;
    for i := 0 to |ctx.methods|
      invariant r.Keys == routes.Keys + (set m | m in ctx.methods[..i])
      invariant forall m :: m in r ==> r[m] == if m in ctx.methods[..i] then ctx.handler else routes[m]
    {
      assert ctx.methods[..i + 1] == ctx.methods[..i] + [ctx.methods[i]];
      r := r[ctx.methods[i] := ctx.handler];
    }
    assert ctx.methods[..|ctx.methods|] == ctx.methods;
    var reg := Registered(routes, ctx);
    assert r.Keys == reg.Keys;
    assert forall m :: m in r ==> r[m] == reg[m];
  }

  // The value each insertion step produces.

  /** The insertion shared by both node kinds, on the node's children and map. */
  function NodeInserted(n: Node, parts: seq<string>, ctx: InsertionContext): Result<Node, Conflict>
    decreases |parts|, 2
  {
    if |parts| == 0 then Ok(n.(routes := Registered(n.routes, ctx)))
    else if StartsWith(parts[0], ':') then
      match ParamChildrenInserted(n.paramChildren, parts[0], parts[1..], ctx)
      case Ok(pc) => Ok(n.(paramChildren := pc))
      case Err(e) => Err(e)
    else
      match StaticChildrenInserted(n.staticChildren, parts[0], parts[1..], ctx)
      case Ok(sc) => Ok(n.(staticChildren := sc))
      case Err(e) => Err(e)
  }

  /** `StaticNode::insert`: the priority goes up by one on every insertion through it. */
  function StaticInserted(s: StaticNode, parts: seq<string>, ctx: InsertionContext): Result<StaticNode, Conflict>
    decreases |parts|, 3
  {
    match NodeInserted(s.node, parts, ctx)
    case Ok(n) => Ok(StaticNode(s.priority + 1, n))
    case Err(e) => Err(e)
  }

  /** `ParameterNode::insert`: no priority. */
  function ParamInserted(p: ParamNode, parts: seq<string>, ctx: InsertionContext): Result<ParamNode, Conflict>
    decreases |parts|, 3
  {
    match NodeInserted(p.node, parts, ctx)
    case Ok(n) => Ok(p.(node := n))
    case Err(e) => Err(e)
  }

  /**
   * `StaticChildren::insert`: into the child under `segment` if there is
   * one (left where it is), else into a fresh node that is pushed and the
   * list sorted by descending priority.
   */
  function StaticChildrenInserted(cs: seq<(string, StaticNode)>, segment: string, rest: seq<string>, ctx: InsertionContext)
    : Result<seq<(string, StaticNode)>, Conflict>
    decreases |rest| + 1, 0
  {
    match FirstKeyIndex(cs, segment)
    case Some(i) =>
      (match StaticInserted(cs[i].1, rest, ctx)
       case Ok(c) => Ok(cs[i := (cs[i].0, c)])
       case Err(e) => Err(e))
    case None =>
      (match StaticInserted(NewStaticNode(), rest, ctx)
       case Ok(c) => Ok(PushSorted(cs, (segment, c), StaticKey))
       case Err(e) => Err(e))
  }

  /**
   * `ParameterChildren::insert`: the segment's name and type are parsed; a
   * child of that type is reused when it has no name or the same name and
   * is a conflict otherwise; without one a new named child is pushed and
   * the list sorted by type.
   */
  function ParamChildrenInserted(cs: seq<(ParameterType, ParamNode)>, segment: string, rest: seq<string>, ctx: InsertionContext)
    : Result<seq<(ParameterType, ParamNode)>, Conflict>
    decreases |rest| + 1, 0
  {
    var (name, t) := ParseName(segment);
    match FirstKeyIndex(cs, t)
    case Some(i) =>
      var p := cs[i].1;
      if p.name.Some? && name != p.name.value then Err(OverlappingNames(name, p.name.value))
      else
        (match ParamInserted(p.(name := Some(name)), rest, ctx)
         case Ok(c) => Ok(cs[i := (cs[i].0, c)])
         case Err(e) => Err(e))
    case None =>
      (match ParamInserted(ParamNode(Some(name), t, EmptyNode()), rest, ctx)
       case Ok(c) => Ok(PushSorted(cs, (t, c), ParamKey))
       case Err(e) => Err(e))
  }

  /**
   * `RouteTree::add_route` on the root: the pattern is trimmed of `/` on both
   * ends; an empty pattern registers on the root without touching its
   * priority, any other is inserted segment by segment below it.
   */
  function AddedRoute(root: StaticNode, methods: seq<Method>, pattern: string, handler: HandlerId)
    : Result<StaticNode, Conflict>
  {
    var path := Trim(pattern, '/');
    var ctx := InsertionContext(methods, handler);
    if path == "" then Ok(root.(node := root.node.(routes := Registered(root.node.routes, ctx))))
    else StaticInserted(root, Split(path, '/'), ctx)
  }

  // The steps as the source performs them.

  /** The body shared by `StaticNode::insert` and `ParameterNode::insert` after the priority bump. */
  method InsertNode(n: Node, parts: seq<string>, ctx: InsertionContext) returns (r: Result<Node, Conflict>)
    ensures r == NodeInserted(n, parts, ctx)
    decreases |parts|, 2
  {
    if |parts| == 0 {
      var routes := SetRoutes(n.routes, ctx);
      return Ok(n.(routes := routes));
    }
    var next, rest := parts[0], parts[1..];
    if StartsWith(next, ':') {
      var pc := InsertParamChild(n.paramChildren, next, rest, ctx);
      if pc.Err? {
        return Err(pc.error);
      }
      r := Ok(n.(paramChildren := pc.value));
    } else {
      var sc := InsertStaticChild(n.staticChildren, next, rest, ctx);
      if sc.Err? {
        return Err(sc.error);
      }
      r := Ok(n.(staticChildren := sc.value));
    }
  }

  /** `StaticNode::insert`. */
  method InsertStatic(s: StaticNode, parts: seq<string>, ctx: InsertionContext) returns (r: Result<StaticNode, Conflict>)
    ensures r == StaticInserted(s, parts, ctx)
    decreases |parts|, 3
  {
    var priority := s.priority + 1;
    var n := InsertNode(s.node, parts, ctx);
    if n.Err? {
      return Err(n.error);
    }
    r := Ok(StaticNode(priority, n.value));
  }

  /** `ParameterNode::insert`. */
  method InsertParam(p: ParamNode, parts: seq<string>, ctx: InsertionContext) returns (r: Result<ParamNode, Conflict>)
    ensures r == ParamInserted(p, parts, ctx)
    decreases |parts|, 3
  {
    var n := InsertNode(p.node, parts, ctx);
    if n.Err? {
      return Err(n.error);
    }
    r := Ok(p.(node := n.value));
  }

  /** `StaticChildren::insert` on the list form. */
  method InsertStaticChild(cs: seq<(string, StaticNode)>, segment: string, rest: seq<string>, ctx: InsertionContext)
    returns (r: Result<seq<(string, StaticNode)>, Conflict>)
    ensures r == StaticChildrenInserted(cs, segment, rest, ctx)
    decreases |rest| + 1, 0
  {
    var found := FindMut(cs, segment);
    if found.Some? {
      var i := found.value;
      var child := InsertStatic(cs[i].1, rest, ctx);
      if child.Err? {
        return Err(child.error);
      }
      r := Ok(cs[i := (cs[i].0, child.value)]);
    } else {
      var child := InsertStatic(NewStaticNode(), rest, ctx);
      if child.Err? {
        return Err(child.error);
      }
      var v := cs + [(segment, child.value)];
      v := SortByKey(v, StaticKey);
      r := Ok(v);
    }
  }

  /** `ParameterChildren::insert` on the list form. */
  method InsertParamChild(cs: seq<(ParameterType, ParamNode)>, segment: string, rest: seq<string>, ctx: InsertionContext)
    returns (r: Result<seq<(ParameterType, ParamNode)>, Conflict>)
    ensures r == ParamChildrenInserted(cs, segment, rest, ctx)
    decreases |rest| + 1, 0
  {
    var (name, t) := ParseName(segment);
    var found := FindMut(cs, t);
    if found.Some? {
      var i := found.value;
      var node := cs[i].1;
      if node.name.Some? {
        if name != node.name.value {
          return Err(OverlappingNames(name, node.name.value));
        }
      } else {
        node := node.(name := Some(name));
      }
      var child := InsertParam(node, rest, ctx);
      if child.Err? {
        return Err(child.error);
      }
      r := Ok(cs[i := (cs[i].0, child.value)]);
    } else {
      var child := InsertParam(ParamNode(Some(name), t, EmptyNode()), rest, ctx);
      if child.Err? {
        return Err(child.error);
      }
      var v := cs + [(t, child.value)];
      v := SortByKey(v, ParamKey);
      r := Ok(v);
    }
  }

  /** `RouteTree`: the root of the trie, a static node. */
  class RouteTree {
    var root: StaticNode

    /** `RouteTree::new`: an empty root. */
    constructor ()
      ensures root == NewStaticNode()
    {
      root := NewStaticNode();
    }

    /**
     * `RouteTree::add_route`. On a conflict the source panics; the model
     * reports the conflict instead and promises nothing about the tree.
     */
    method AddRoute(methods: seq<Method>, pattern: string, handler: HandlerId) returns (conflict: Option<Conflict>)
      modifies this
      ensures var a := AddedRoute(old(root), methods, pattern, handler);
        && (a.Ok? ==> conflict.None? && root == a.value)
        && (a.Err? ==> conflict == Some(a.error))
    {
      var path := Trim(pattern, '/');
      var ctx := InsertionContext(methods, handler);
      if path == "" {
        var routes := SetRoutes(root.node.routes, ctx);
        root := root.(node := root.node.(routes := routes));
        conflict := None;
      } else {
        var r := InsertStatic(root, Split(path, '/'), ctx);
        if r.Ok? {
          root := r.value;
          conflict := None;
        } else {
          conflict := Some(r.error);
        }
      }
    }
  }
}
