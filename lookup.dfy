/**
 * Route lookup: walking the trie along the segments of a request path,
 * preferring a literal child over parameter children at each level and
 * accumulating the values of the parameter segments on the way.
 *
 * The source threads a `&mut RouteParameters` through the walk and only
 * ever appends to it; the model passes the parameters in and returns them
 * out, which is the same computation.
 */
module Lookup {
  import opened Wrappers
  import opened Text
  import opened Integers
  import opened Children
  import opened Tree

  /** The type tag of an extracted value. */
  function TypeOfValue(v: Parameter): ParameterType {
    match v
    case String(_) => ParameterType.String
    case U32(_) => ParameterType.U32
    case I32(_) => ParameterType.I32
  }

  /**
   * The match in `find_loop`: a segment is a `u32` or `i32` parameter when
   * Rust's integer parse accepts it, and a `String` parameter always.
   */
  function ParseAs(t: ParameterType, segment: string): (r: Option<Parameter>)
    ensures r.Some? ==> TypeOfValue(r.value) == t
    ensures t == ParameterType.String ==> r == Some(Parameter.String(segment))
    ensures t == ParameterType.U32 ==> (r.Some? <==> ParseU32(segment).Some?)
    ensures t == ParameterType.I32 ==> (r.Some? <==> ParseI32(segment).Some?)
    ensures r.Some? && r.value.U32? ==> ParseU32(segment) == Some(r.value.u)
    ensures r.Some? && r.value.I32? ==> ParseI32(segment) == Some(r.value.i)
  {
    match t
    case U32 => (match ParseU32(segment) case Some(v) => Some(Parameter.U32(v)) case None => None)
    case I32 => (match ParseI32(segment) case Some(v) => Some(Parameter.I32(v)) case None => None)
    case String => Some(Parameter.String(segment))
  }

  /** What `find_loop` does to the parameters once the segment parsed to `v`. */
  function Record(params: RouteParameters, name: Option<string>, v: Parameter): RouteParameters {
    match name
    case Some(n) => RouteParameters(params.named[n := v], params.ordered + [v])
    case None => RouteParameters(params.named, params.ordered + [v])
  }

  /** Child `i` is the first, in list order, whose type accepts the segment. */
  ghost predicate FirstParsingAt(cs: seq<(ParameterType, ParamNode)>, segment: string, i: int) {
    && 0 <= i < |cs|
    && ParseAs(cs[i].0, segment).Some?
    && forall j :: 0 <= j < i ==> ParseAs(cs[j].0, segment).None?
  }

  /**
   * `ParameterChildren::find` on the list form: `find_map` over the children
   * with `find_loop`, so the first child whose type accepts the segment is
   * taken, and exactly one value is appended for it (and stored under its
   * name when it has one).
   */
  function ParamChildrenFind(cs: seq<(ParameterType, ParamNode)>, segment: string, params: RouteParameters)
    : (r: Option<(ParamNode, RouteParameters)>)
    ensures r.None? <==> forall i :: 0 <= i < |cs| ==> ParseAs(cs[i].0, segment).None?
    ensures r.Some? ==>
      exists i :: FirstParsingAt(cs, segment, i) &&
        r.value == (cs[i].1, Record(params, cs[i].1.name, ParseAs(cs[i].0, segment).value))
    decreases |cs|
  {
    if |cs| == 0 then None
    else
      match ParseAs(cs[0].0, segment)
      case Some(v) =>
        assert FirstParsingAt(cs, segment, 0);
        Some((cs[0].1, Record(params, cs[0].1.name, v)))
      case None =>
        assert forall i :: FirstParsingAt(cs[1..], segment, i) ==> FirstParsingAt(cs, segment, i + 1);
        ParamChildrenFind(cs[1..], segment, params)
  }

  /** `StaticChildren::find` on the list form: the child under the first equal key. */
  function StaticChildrenFind(cs: seq<(string, StaticNode)>, segment: string): Option<StaticNode> {
    match FirstKeyIndex(cs, segment)
    case Some(i) => Some(cs[i].1)
    case None => None
  }

  /**
   * `StaticNode::find` and `ParameterNode::find` (the same code for both):
   * with no segment left the node's method map is the answer; otherwise a
   * literal child for the next segment is taken if there is one, else the
   * first accepting parameter child, and the walk continues from it without
   * ever coming back to try another child.
   */
  function Find(n: Node, parts: seq<string>, params: RouteParameters): (r: Option<(MethodMap, RouteParameters)>)
    ensures r.Some? ==> |params.ordered| <= |r.value.1.ordered| <= |params.ordered| + |parts|
    ensures r.Some? ==> r.value.1.ordered[..|params.ordered|] == params.ordered
    ensures r.Some? ==> params.named.Keys <= r.value.1.named.Keys
    decreases |parts|
  {
    if |parts| == 0 then Some((n.routes, params))
    else
      match StaticChildrenFind(n.staticChildren, parts[0])
      case Some(s) => Find(s.node, parts[1..], params)
      case None =>
        match ParamChildrenFind(n.paramChildren, parts[0], params)
        case Some((p, params')) =>
          var r := Find(p.node, parts[1..], params');
          assert r.Some? ==> r.value.1.ordered[..|params.ordered|] == params'.ordered[..|params.ordered|];
          r
        case None => None
  }

  /**
   * `RouteTree::route_to`: the empty path is the root itself with no
   * parameters; any other path is split on `/` and walked from the root.
   */
  function RouteTo(root: StaticNode, path: string): (r: Option<(MethodMap, RouteParameters)>)
    ensures path == "" ==> r == Some((root.node.routes, NoParameters()))
    ensures r.Some? ==> |r.value.1.ordered| <= |Split(path, '/')|
  {
    if path == "" then Some((root.node.routes, NoParameters()))
    else Find(root.node, Split(path, '/'), NoParameters())
  }

  /**
   * A literal child that matches the next segment is always taken, and the
   * walk commits to it: when the rest of the path fails below it, the lookup
   * fails, even if a parameter child would have accepted the segment and
   * led to a match.
   */
  lemma StaticCommits(n: Node, parts: seq<string>, params: RouteParameters, i: nat)
    requires |parts| > 0 && FirstKeyIndex(n.staticChildren, parts[0]) == Some(i)
    ensures Find(n, parts, params) == Find(n.staticChildren[i].1.node, parts[1..], params)
    ensures Find(n.staticChildren[i].1.node, parts[1..], params).None? ==> Find(n, parts, params).None?
  {
  }

  /**
   * Without a literal child for the segment, the walk continues below the
   * first parameter child that accepts it, with that one value recorded.
   */
  lemma {:induction false} ParamChildTaken(n: Node, parts: seq<string>, params: RouteParameters, i: nat)
    requires |parts| > 0 && FirstKeyIndex(n.staticChildren, parts[0]).None?
    requires FirstParsingAt(n.paramChildren, parts[0], i)
    ensures var c := n.paramChildren[i];
      Find(n, parts, params) == Find(c.1.node, parts[1..], Record(params, c.1.name, ParseAs(c.0, parts[0]).value))
  {
    var pc := n.paramChildren;
    var r := ParamChildrenFind(pc, parts[0], params);
    assert r.Some?;
    var j :| FirstParsingAt(pc, parts[0], j)
      && r.value == (pc[j].1, Record(params, pc[j].1.name, ParseAs(pc[j].0, parts[0]).value));
  }

  /** A segment matching no literal child and no parameter type ends the lookup. */
  lemma NothingAccepts(n: Node, parts: seq<string>, params: RouteParameters)
    requires |parts| > 0 && FirstKeyIndex(n.staticChildren, parts[0]).None?
    requires forall i :: 0 <= i < |n.paramChildren| ==> ParseAs(n.paramChildren[i].0, parts[0]).None?
    ensures Find(n, parts, params).None?
  {
  }

  /** A `String` child accepts every segment, the empty one included. */
  lemma StringChildAcceptsAll(n: Node, segment: string, params: RouteParameters, j: nat)
    requires j < |n.paramChildren| && n.paramChildren[j].0 == ParameterType.String
    ensures ParamChildrenFind(n.paramChildren, segment, params).Some?
  {
  }

  /**
   * In a valid node a numeric child that accepts the segment wins over the
   * `String` child, because parameter children are kept in `Cmp` order.
   */
  lemma {:induction false} NumericWinsOverString(n: Node, segment: string, params: RouteParameters, i: nat)
    requires Valid(n) && i < |n.paramChildren| && n.paramChildren[i].0 != ParameterType.String
    requires ParseAs(n.paramChildren[i].0, segment).Some?
    ensures var r := ParamChildrenFind(n.paramChildren, segment, params);
      r.Some? && r.value.0.ptype != ParameterType.String
  {
    var pc := n.paramChildren;
    var r := ParamChildrenFind(pc, segment, params);
    var k :| FirstParsingAt(pc, segment, k)
      && r.value == (pc[k].1, Record(params, pc[k].1.name, ParseAs(pc[k].0, segment).value));
    assert k <= i;
    if pc[k].0 == ParameterType.String {
      NumericBeforeString(n, i, k);
    }
  }
}
