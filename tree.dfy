/**
 * The data of the route trie: parameter types and their order, extracted
 * parameter values, the two node kinds and their shared part (children and
 * method map), and the shape invariant every tree built by insertion keeps.
 *
 * Nodes are values. In the source each node is a `Box` exclusively owned by
 * its parent's child list, with no sharing and no back references, so
 * updating a node in place is modelled as replacing it by its updated value.
 */
module Tree {
  import opened Wrappers
  import opened Text
  import opened Integers
  import opened Http
  import opened Children

  /** Handlers are opaque: a route stores the identity of its handler. */
  type HandlerId = nat

  /** The per-node map from request method to handler. */
  type MethodMap = map<Method, HandlerId>

  datatype Ordering = Less | Equal | Greater

  /** The type a parameter segment declares; `String` unless `{u32}` or `{i32}`. */
  datatype ParameterType = U32 | I32 | String

  /**
   * `Ord for ParameterType`: `String` is strictly greater than both numeric
   * types, which compare `Equal` to each other (and to themselves).
   */
  function Cmp(a: ParameterType, b: ParameterType): (r: Ordering)
    ensures r == Greater <==> a == ParameterType.String && b != ParameterType.String
    ensures r == Less <==> a != ParameterType.String && b == ParameterType.String
    ensures r == Equal <==> (a == ParameterType.String <==> b == ParameterType.String)
  {
    if a == ParameterType.String then
      if b == ParameterType.String then Equal else Greater
    else
      if b == ParameterType.String then Less else Equal
  }

  /** The integer whose order `Cmp` is: 0 for the numeric types, 1 for `String`. */
  function Rank(t: ParameterType): (r: int)
    ensures r == 0 || r == 1
  {
    if t == ParameterType.String then 1 else 0
  }

  /** `Cmp` is exactly the comparison of ranks, so sorting by it is sorting by `Rank`. */
  lemma CmpIsRankOrder(a: ParameterType, b: ParameterType)
    ensures Cmp(a, b) == Less <==> Rank(a) < Rank(b)
    ensures Cmp(a, b) == Equal <==> Rank(a) == Rank(b)
    ensures Cmp(a, b) == Greater <==> Rank(a) > Rank(b)
  {
  }

  /**
   * `From<&str> for ParameterType`: the text strictly between the first `{`
   * and the first `}` selects `U32` or `I32` when it is exactly `u32` or
   * `i32`; a missing brace, a `}` before the `{`, or any other text gives
   * `String`.
   */
  function TypeOf(s: string): ParameterType {
    match (IndexOf(s, '{'), IndexOf(s, '}'))
    case (Some(lb), Some(rb)) =>
      if lb + 1 <= rb then
        if s[lb + 1..rb] == "u32" then ParameterType.U32
        else if s[lb + 1..rb] == "i32" then ParameterType.I32
        else ParameterType.String
      else ParameterType.String
    case _ => ParameterType.String
  }

  /** The type an annotation names: `u32`, `i32`, or (for any other text) `String`. */
  function AnnotationType(ty: string): ParameterType {
    if ty == "u32" then ParameterType.U32 else if ty == "i32" then ParameterType.I32 else ParameterType.String
  }

  /**
   * `ParameterType::parse_name`: strip every leading `:`, then the name is the
   * text before the first `{` (all of it if there is none) and the type is
   * read from the same text as `TypeOf` reads it.
   */
  function ParseName(segment: string): (r: (string, ParameterType))
    ensures '{' !in r.0
    ensures var rest := TrimStart(segment, ':');
      |r.0| <= |rest| && r.0 == rest[..|r.0|] && ('{' !in rest ==> r.0 == rest && r.1 == ParameterType.String)
    ensures var rest := TrimStart(segment, ':');
      '{' in rest ==> |r.0| < |rest| && rest[|r.0|] == '{'
    ensures r.1 == TypeOf(TrimStart(segment, ':'))
  {
    var rest := TrimStart(segment, ':');
    var name := match IndexOf(rest, '{') case Some(lb) => rest[..lb] case None => rest;
    (name, TypeOf(rest))
  }

  /**
   * A segment of the shape the route macros generate, `:name{type}`, parses
   * back to that name and the type the annotation names.
   */
  lemma ParseNameAnnotated(name: string, ty: string)
    requires !StartsWith(name, ':') && '{' !in name && '}' !in name
    requires '{' !in ty && '}' !in ty
    ensures ParseName(":" + name + "{" + ty + "}") == (name, AnnotationType(ty))
  {
    AnnotatedStart(name, ty);
    AnnotatedType(name, ty);
    OpeningBrace(name, ty);
    BracedSlices(name, ty);
    BracedName(":" + name + "{" + ty + "}", name + "{" + ty + "}", |name|);
  }

  /** The type read from `name{type}` is the one `type` names. */
  lemma AnnotatedType(name: string, ty: string)
    requires '{' !in name && '}' !in name && '{' !in ty && '}' !in ty
    ensures TypeOf(name + "{" + ty + "}") == AnnotationType(ty)
  {
    var rest := name + "{" + ty + "}";
    OpeningBrace(name, ty);
    ClosingBrace(name, ty);
    BracedSlices(name, ty);
    var lb, rb := |name|, |name| + 1 + |ty|;
    assert rest[lb + 1..rb] == ty;
  }

  /** The name `ParseName` reads is the text before the first `{`. */
  lemma BracedName(segment: string, rest: string, lb: nat)
    requires TrimStart(segment, ':') == rest
    requires IndexOf(rest, '{') == Some(lb)
    ensures ParseName(segment) == (rest[..lb], TypeOf(rest))
  {
  }

  /** Stripping the leading `:` of `:name{type}` leaves `name{type}`. */
  lemma AnnotatedStart(name: string, ty: string)
    requires !StartsWith(name, ':')
    ensures TrimStart(":" + name + "{" + ty + "}", ':') == name + "{" + ty + "}"
  {
    var rest := name + "{" + ty + "}";
    assert ":" + name + "{" + ty + "}" == [':'] + rest;
    assert !StartsWith(rest, ':') by {
      if |name| > 0 { assert rest[0] == name[0]; } else { assert rest[0] == '{'; }
    }
    TrimStartIgnoresLeading(rest, ':');
  }

  /** `name{type}` as the pieces the brace lookups see. */
  lemma BracedShape(name: string, ty: string)
    ensures name + "{" + ty + "}" == name + ['{'] + (ty + ['}'])
    ensures name + "{" + ty + "}" == (name + ['{'] + ty) + ['}']
    ensures |name + ['{'] + ty| == |name| + 1 + |ty|
  {
  }

  /** The name and the annotation sit where the braces say. */
  lemma BracedSlices(name: string, ty: string)
    ensures (name + "{" + ty + "}")[..|name|] == name
    ensures (name + "{" + ty + "}")[|name| + 1..|name| + 1 + |ty|] == ty
  {
    var rest := name + "{" + ty + "}";
    assert rest[..|name|] == name;
    assert rest[|name| + 1..|name| + 1 + |ty|] == ty;
  }

  lemma OpeningBrace(name: string, ty: string)
    requires '{' !in name
    ensures IndexOf(name + "{" + ty + "}", '{') == Some(|name|)
  {
    IndexOfAfter(name, '{', ty + ['}']);
    BracedShape(name, ty);
  }

  lemma NoClosing(name: string, ty: string)
    requires '}' !in name && '}' !in ty
    ensures '}' !in name + ['{'] + ty
  {
  }

  lemma ClosingBrace(name: string, ty: string)
    requires '}' !in name && '}' !in ty
    ensures IndexOf(name + "{" + ty + "}", '}') == Some(|name| + 1 + |ty|)
  {
    NoClosing(name, ty);
    IndexOfLast(name + ['{'] + ty, '}');
    BracedShape(name, ty);
  }

  /** A segment `:name` without braces is a `String` parameter called `name`. */
  lemma ParseNamePlain(name: string)
    requires !StartsWith(name, ':') && '{' !in name
    ensures ParseName(":" + name) == (name, ParameterType.String)
  {
    assert ":" + name == [':'] + name;
    TrimStartIgnoresLeading(name, ':');
  }

  /** A value extracted from a path segment, tagged with the type that parsed it. */
  datatype Parameter = String(s: string) | U32(u: u32) | I32(i: i32)

  /**
   * `RouteParameters`: every extracted value in path order, and the values of
   * named parameters by name.
   */
  datatype RouteParameters = RouteParameters(named: map<string, Parameter>, ordered: seq<Parameter>) {

    /** `first_i32`: the first extracted value, when it is an `i32`. */
    function FirstI32(): (r: Option<i32>)
      ensures r.Some? <==> |ordered| > 0 && ordered[0].I32?
      ensures r.Some? ==> ordered[0] == Parameter.I32(r.value)
    {
      if |ordered| > 0 && ordered[0].I32? then Some(ordered[0].i) else None
    }

    /** `get_i32`: the value named `name`, when it is an `i32`. */
    function GetI32(name: string): (r: Option<i32>)
      ensures r.Some? <==> name in named && named[name].I32?
      ensures r.Some? ==> named[name] == Parameter.I32(r.value)
    {
      if name in named && named[name].I32? then Some(named[name].i) else None
    }

    /** `get_string`: the value named `name`, when it is a string. */
    function GetString(name: string): (r: Option<string>)
      ensures r.Some? <==> name in named && named[name].String?
      ensures r.Some? ==> named[name] == Parameter.String(r.value)
    {
      if name in named && named[name].String? then Some(named[name].s) else None
    }
  }

  /** `RouteParameters::new`. */
  function NoParameters(): RouteParameters {
    RouteParameters(map[], [])
  }

  /**
   * What both node kinds hold: static children keyed by literal segment,
   * parameter children keyed by parameter type, and the method map.
   */
  datatype Node = Node(
    staticChildren: seq<(string, StaticNode)>,
    paramChildren: seq<(ParameterType, ParamNode)>,
    routes: MethodMap)

  /** `StaticNode`: a node matched by a literal segment, with its priority counter. */
  datatype StaticNode = StaticNode(priority: nat, node: Node)

  /** `ParameterNode`: a node matched by parsing a segment as `ptype`. */
  datatype ParamNode = ParamNode(name: Option<string>, ptype: ParameterType, node: Node)

  function EmptyNode(): Node {
    Node([], [], map[])
  }

  /** `StaticNode::new`, also the root of `RouteTree::new`. */
  function NewStaticNode(): StaticNode {
    StaticNode(0, EmptyNode())
  }

  /** The sort key for static children: descending priority. */
  function StaticKey(s: StaticNode): int {
    -(s.priority as int)
  }

  /** The sort key for parameter children: `Cmp` on the node's type. */
  function ParamKey(p: ParamNode): int {
    Rank(p.ptype)
  }

  /**
   * The shape every tree built by insertion has: at each node, static keys
   * are distinct literal segments (never starting with `:`), parameter types
   * are distinct, each parameter child is filed under its own type and has
   * a name, and the parameter children are in `Cmp` order.
   */
  ghost predicate Valid(n: Node)
    decreases n
  {
    && StaticShape(n.staticChildren)
    && ParamShape(n.paramChildren)
    && (forall i :: 0 <= i < |n.staticChildren| ==> Valid(n.staticChildren[i].1.node))
    && (forall i :: 0 <= i < |n.paramChildren| ==> Valid(n.paramChildren[i].1.node))
  }

  /** The static-children part of `Valid`, for one list. */
  ghost predicate StaticShape(cs: seq<(string, StaticNode)>) {
    && KeysDistinct(cs)
    && (forall i :: 0 <= i < |cs| ==> !StartsWith(cs[i].0, ':'))
  }

  /** The parameter-children part of `Valid`, for one list. */
  ghost predicate ParamShape(cs: seq<(ParameterType, ParamNode)>) {
    && KeysDistinct(cs)
    && (forall i :: 0 <= i < |cs| ==> cs[i].1.ptype == cs[i].0 && cs[i].1.name.Some?)
    && SortedByKey(cs, ParamKey)
  }

  /** A static child list of a valid node: the right shape and valid children. */
  ghost predicate StaticChildrenValid(cs: seq<(string, StaticNode)>) {
    StaticShape(cs) && forall i :: 0 <= i < |cs| ==> Valid(cs[i].1.node)
  }

  /** A parameter child list of a valid node: the right shape and valid children. */
  ghost predicate ParamChildrenValid(cs: seq<(ParameterType, ParamNode)>) {
    ParamShape(cs) && forall i :: 0 <= i < |cs| ==> Valid(cs[i].1.node)
  }

  /** In a valid node every numeric parameter child comes before every `String` one. */
  lemma NumericBeforeString(n: Node, i: nat, j: nat)
    requires Valid(n) && i < |n.paramChildren| && j < |n.paramChildren|
    requires n.paramChildren[i].0 != ParameterType.String && n.paramChildren[j].0 == ParameterType.String
    ensures i < j
  {
  }
}
