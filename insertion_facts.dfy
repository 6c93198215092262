/**
 * What registration guarantees about the trie: it keeps the shape invariant,
 * a literal route is found where it was registered, registering one literal
 * route leaves every other literal path's map alone (so literal routes can
 * be registered in any order), and the parameter rules (reuse, creation,
 * conflicting names).
 */
module InsertionFacts {
  import opened Wrappers
  import opened Text
  import opened Http
  import opened Children
  import opened Tree
  import opened Lookup
  import opened Insertion

  // Insertion keeps the tree valid.

  lemma {:induction false} NodeInsertedValid(n: Node, parts: seq<string>, ctx: InsertionContext)
    requires Valid(n)
    ensures var r := NodeInserted(n, parts, ctx); r.Ok? ==> Valid(r.value)
    decreases |parts|, 2
  {
    if |parts| == 0 {
    } else if StartsWith(parts[0], ':') {
      ParamChildrenInsertedValid(n.paramChildren, parts[0], parts[1..], ctx);
    } else {
      StaticChildrenInsertedValid(n.staticChildren, parts[0], parts[1..], ctx);
    }
  }

  lemma {:induction false} StaticInsertedValid(s: StaticNode, parts: seq<string>, ctx: InsertionContext)
    requires Valid(s.node)
    ensures var r := StaticInserted(s, parts, ctx); r.Ok? ==> Valid(r.value.node)
    decreases |parts|, 3
  {
    NodeInsertedValid(s.node, parts, ctx);
  }

  lemma {:induction false} ParamInsertedValid(p: ParamNode, parts: seq<string>, ctx: InsertionContext)
    requires Valid(p.node)
    ensures var r := ParamInserted(p, parts, ctx);
      r.Ok? ==> Valid(r.value.node) && r.value.name == p.name && r.value.ptype == p.ptype
    decreases |parts|, 3
  {
    NodeInsertedValid(p.node, parts, ctx);
  }

  lemma {:induction false} StaticChildrenInsertedValid(cs: seq<(string, StaticNode)>, segment: string, rest: seq<string>, ctx: InsertionContext)
    requires StaticChildrenValid(cs) && !StartsWith(segment, ':')
    ensures var r := StaticChildrenInserted(cs, segment, rest, ctx); r.Ok? ==> StaticChildrenValid(r.value)
    decreases |rest| + 1, 0
  {
    match FirstKeyIndex(cs, segment)
    case Some(i) =>
      StaticInsertedValid(cs[i].1, rest, ctx);
      var c := StaticInserted(cs[i].1, rest, ctx);
      if c.Ok? {
        StaticReplaceValid(cs, i, c.value);
      }
    case None =>
      StaticInsertedValid(NewStaticNode(), rest, ctx);
      var c := StaticInserted(NewStaticNode(), rest, ctx);
      if c.Ok? {
        StaticPushValid(cs, (segment, c.value));
      }
  }

  lemma StaticReplaceValid(cs: seq<(string, StaticNode)>, i: nat, c: StaticNode)
    requires StaticChildrenValid(cs) && i < |cs| && Valid(c.node)
    ensures StaticChildrenValid(cs[i := (cs[i].0, c)])
  {
    var r := cs[i := (cs[i].0, c)];
    assert forall k :: 0 <= k < |cs| ==> r[k].0 == cs[k].0;
  }

  lemma StaticPushValid(cs: seq<(string, StaticNode)>, x: (string, StaticNode))
    requires StaticChildrenValid(cs) && FirstKeyIndex(cs, x.0).None?
    requires !StartsWith(x.0, ':') && Valid(x.1.node)
    ensures StaticChildrenValid(PushSorted(cs, x, StaticKey))
  {
    PushSortedFacts(cs, x, StaticKey);
    PushSortedMembers(cs, x, StaticKey);
  }

  lemma {:induction false} ParamChildrenInsertedValid(cs: seq<(ParameterType, ParamNode)>, segment: string, rest: seq<string>, ctx: InsertionContext)
    requires ParamChildrenValid(cs)
    ensures var r := ParamChildrenInserted(cs, segment, rest, ctx); r.Ok? ==> ParamChildrenValid(r.value)
    decreases |rest| + 1, 0
  {
    var (name, t) := ParseName(segment);
    match FirstKeyIndex(cs, t)
    case Some(i) =>
      var p := cs[i].1;
      if !(p.name.Some? && name != p.name.value) {
        ParamInsertedValid(p.(name := Some(name)), rest, ctx);
        var c := ParamInserted(p.(name := Some(name)), rest, ctx);
        if c.Ok? {
          ParamReplaceValid(cs, i, c.value);
        }
      }
    case None =>
      var created := ParamNode(Some(name), t, EmptyNode());
      ParamInsertedValid(created, rest, ctx);
      var c := ParamInserted(created, rest, ctx);
      if c.Ok? {
        ParamPushValid(cs, (t, c.value));
      }
  }

  lemma ParamReplaceValid(cs: seq<(ParameterType, ParamNode)>, i: nat, c: ParamNode)
    requires ParamChildrenValid(cs) && i < |cs|
    requires Valid(c.node) && c.ptype == cs[i].1.ptype && c.name.Some?
    ensures ParamChildrenValid(cs[i := (cs[i].0, c)])
  {
    var r := cs[i := (cs[i].0, c)];
    assert forall k :: 0 <= k < |cs| ==> r[k].0 == cs[k].0 && ParamKey(r[k].1) == ParamKey(cs[k].1);
  }

  lemma ParamPushValid(cs: seq<(ParameterType, ParamNode)>, x: (ParameterType, ParamNode))
    requires ParamChildrenValid(cs)
    requires forall j :: 0 <= j < |cs| ==> cs[j].0 != x.0
    requires Valid(x.1.node) && x.1.ptype == x.0 && x.1.name.Some?
    ensures ParamChildrenValid(PushSorted(cs, x, ParamKey))
  {
    PushSortedFacts(cs, x, ParamKey);
    PushSortedMembers(cs, x, ParamKey);
  }

  /** `add_route` keeps the trie valid whenever it does not panic. */
  lemma AddedRouteValid(root: StaticNode, methods: seq<Method>, pattern: string, handler: HandlerId)
    requires Valid(root.node)
    ensures var a := AddedRoute(root, methods, pattern, handler); a.Ok? ==> Valid(a.value.node)
  {
    var path := Trim(pattern, '/');
    if path != "" {
      StaticInsertedValid(root, Split(path, '/'), InsertionContext(methods, handler));
    }
  }

  // Literal routes.

  /** A pattern with no parameter segment. */
  ghost predicate Literal(parts: seq<string>) {
    forall i :: 0 <= i < |parts| ==> !StartsWith(parts[i], ':')
  }

  /**
   * The method map at the end of a path followed through literal children
   * only; empty when the path is not in the trie.
   */
  function LiteralRoutes(n: Node, parts: seq<string>): MethodMap
    decreases |parts|
  {
    if |parts| == 0 then n.routes
    else
      match StaticChildrenFind(n.staticChildren, parts[0])
      case Some(s) => LiteralRoutes(s.node, parts[1..])
      case None => map[]
  }

  lemma EmptyLiteralRoutes(parts: seq<string>)
    ensures LiteralRoutes(EmptyNode(), parts) == map[]
  {
  }

  /**
   * Registering a literal pattern never panics, and looking its segments up
   * afterwards reaches the node it was registered on, with no parameters
   * recorded and the methods added to whatever that node held before.
   */
  lemma {:induction false} LiteralInsertReached(n: Node, parts: seq<string>, ctx: InsertionContext, params: RouteParameters)
    requires Valid(n) && Literal(parts)
    ensures NodeInserted(n, parts, ctx).Ok?
    ensures Find(NodeInserted(n, parts, ctx).value, parts, params)
      == Some((Registered(LiteralRoutes(n, parts), ctx), params))
    decreases |parts|
  {
    if |parts| > 0 {
      var seg, rest := parts[0], parts[1..];
      assert Literal(rest) by {
        assert forall i :: 0 <= i < |rest| ==> rest[i] == parts[i + 1];
      }
      var sc := n.staticChildren;
      match FirstKeyIndex(sc, seg)
      case Some(i) =>
        LiteralInsertReached(sc[i].1.node, rest, ctx, params);
        var c := StaticInserted(sc[i].1, rest, ctx).value;
        FirstKeyIndexReplace(sc, i, c, seg);
      case None =>
        LiteralInsertReached(EmptyNode(), rest, ctx, params);
        EmptyLiteralRoutes(rest);
        var c := StaticInserted(NewStaticNode(), rest, ctx).value;
        PushSortedFacts(sc, (seg, c), StaticKey);
    }
  }

  /**
   * `add_route` of a pattern whose segments are all literal: `route_to` on the
   * trimmed pattern finds the methods registered there, each given method
   * routing to the new handler, with no parameters.
   */
  lemma LiteralRouteRegistered(root: StaticNode, methods: seq<Method>, pattern: string, handler: HandlerId)
    requires Valid(root.node)
    requires Trim(pattern, '/') != "" && Literal(Split(Trim(pattern, '/'), '/'))
    ensures var a := AddedRoute(root, methods, pattern, handler);
      var path := Trim(pattern, '/');
      var ctx := InsertionContext(methods, handler);
      && a.Ok?
      && RouteTo(a.value, path) == Some((Registered(LiteralRoutes(root.node, Split(path, '/')), ctx), NoParameters()))
      && forall m :: m in methods ==> RouteTo(a.value, path).value.0[m] == handler
  {
    var path := Trim(pattern, '/');
    LiteralInsertReached(root.node, Split(path, '/'), InsertionContext(methods, handler), NoParameters());
  }

  /**
   * Registering literal pattern `a` changes the literal map of `a` and of no
   * other literal path.
   */
  lemma {:induction false} LiteralRoutesFrame(n: Node, a: seq<string>, b: seq<string>, ctx: InsertionContext)
    requires Valid(n) && Literal(a)
    ensures NodeInserted(n, a, ctx).Ok?
    ensures LiteralRoutes(NodeInserted(n, a, ctx).value, b)
      == if a == b then Registered(LiteralRoutes(n, a), ctx) else LiteralRoutes(n, b)
    decreases |a|, 1
  {
    LiteralInsertReached(n, a, ctx, NoParameters());
    if |a| > 0 && |b| > 0 {
      assert Literal(a[1..]) by {
        assert forall i :: 0 <= i < |a[1..]| ==> a[1..][i] == a[i + 1];
      }
      assert a == b <==> a[0] == b[0] && a[1..] == b[1..] by {
        if a[0] == b[0] && a[1..] == b[1..] {
          assert a == [a[0]] + a[1..] && b == [b[0]] + b[1..];
        }
      }
      match FirstKeyIndex(n.staticChildren, a[0])
      case Some(i) => FrameThroughExisting(n, a, b, ctx, i);
      case None => FrameThroughCreated(n, a, b, ctx);
    }
  }

  /** `LiteralRoutesFrame` when the first segment of `a` already has a child. */
  lemma {:induction false} FrameThroughExisting(n: Node, a: seq<string>, b: seq<string>, ctx: InsertionContext, i: nat)
    requires Valid(n) && |a| > 0 && |b| > 0 && Literal(a[1..])
    requires FirstKeyIndex(n.staticChildren, a[0]) == Some(i)
    requires NodeInserted(n, a, ctx).Ok? && !StartsWith(a[0], ':')
    ensures LiteralRoutes(NodeInserted(n, a, ctx).value, b)
      == if a[0] == b[0] && a[1..] == b[1..] then Registered(LiteralRoutes(n, a), ctx) else LiteralRoutes(n, b)
    decreases |a|, 0
  {
    var sc := n.staticChildren;
    var c := StaticInserted(sc[i].1, a[1..], ctx).value;
    FirstKeyIndexReplace(sc, i, c, b[0]);
    if a[0] == b[0] {
      LiteralRoutesFrame(sc[i].1.node, a[1..], b[1..], ctx);
    }
  }

  /** `LiteralRoutesFrame` when the first segment of `a` gets a new child. */
  lemma {:induction false} FrameThroughCreated(n: Node, a: seq<string>, b: seq<string>, ctx: InsertionContext)
    requires Valid(n) && |a| > 0 && |b| > 0 && Literal(a[1..])
    requires FirstKeyIndex(n.staticChildren, a[0]).None?
    requires NodeInserted(n, a, ctx).Ok? && !StartsWith(a[0], ':')
    ensures LiteralRoutes(NodeInserted(n, a, ctx).value, b)
      == if a[0] == b[0] && a[1..] == b[1..] then Registered(LiteralRoutes(n, a), ctx) else LiteralRoutes(n, b)
    decreases |a|, 0
  {
    var sc := n.staticChildren;
    var c := StaticInserted(NewStaticNode(), a[1..], ctx).value;
    if a[0] == b[0] {
      PushSortedFacts(sc, (a[0], c), StaticKey);
      LiteralRoutesFrame(EmptyNode(), a[1..], b[1..], ctx);
      EmptyLiteralRoutes(a[1..]);
      EmptyLiteralRoutes(b[1..]);
    } else {
      PushSortedOtherKey(sc, (a[0], c), StaticKey, b[0]);
    }
  }

  /**
   * Two different literal patterns registered in either order leave the same
   * map at every literal path.
   */
  lemma LiteralInsertionsCommute(
    n: Node, a: seq<string>, ctxA: InsertionContext, b: seq<string>, ctxB: InsertionContext, p: seq<string>)
    requires Valid(n) && Literal(a) && Literal(b) && a != b
    ensures NodeInserted(n, a, ctxA).Ok? && NodeInserted(n, b, ctxB).Ok?
    ensures NodeInserted(NodeInserted(n, a, ctxA).value, b, ctxB).Ok?
    ensures NodeInserted(NodeInserted(n, b, ctxB).value, a, ctxA).Ok?
    ensures LiteralRoutes(NodeInserted(NodeInserted(n, a, ctxA).value, b, ctxB).value, p)
      == LiteralRoutes(NodeInserted(NodeInserted(n, b, ctxB).value, a, ctxA).value, p)
  {
    LiteralRoutesFrame(n, a, p, ctxA);
    LiteralRoutesFrame(n, b, p, ctxB);
    LiteralRoutesFrame(n, a, b, ctxA);
    LiteralRoutesFrame(n, b, a, ctxB);
    NodeInsertedValid(n, a, ctxA);
    NodeInsertedValid(n, b, ctxB);
    var nA := NodeInserted(n, a, ctxA).value;
    var nB := NodeInserted(n, b, ctxB).value;
    LiteralRoutesFrame(nA, b, p, ctxB);
    LiteralRoutesFrame(nB, a, p, ctxA);
  }

  // The root.

  /**
   * `add_route` bumps the root's priority once for a non-empty pattern and
   * not at all for an empty one; an empty pattern (such as `/`) registers
   * the methods on the root itself, which `route_to("")` then returns with
   * no parameters.
   */
  lemma RootAfterAddRoute(root: StaticNode, methods: seq<Method>, pattern: string, handler: HandlerId)
    ensures var a := AddedRoute(root, methods, pattern, handler);
      a.Ok? ==> a.value.priority == root.priority + (if Trim(pattern, '/') == "" then 0 else 1)
    ensures var a := AddedRoute(root, methods, pattern, handler);
      Trim(pattern, '/') == "" ==>
        && a.Ok?
        && a.value.node.staticChildren == root.node.staticChildren
        && a.value.node.paramChildren == root.node.paramChildren
        && RouteTo(a.value, "") == Some((Registered(root.node.routes, InsertionContext(methods, handler)), NoParameters()))
  {
  }

  // Parameter children.

  /**
   * A parameter segment whose type already has a child with another name
   * is the overlapping-names panic.
   */
  lemma ParamConflict(cs: seq<(ParameterType, ParamNode)>, segment: string, rest: seq<string>, ctx: InsertionContext, i: nat)
    requires FirstKeyIndex(cs, ParseName(segment).1) == Some(i)
    requires cs[i].1.name.Some? && cs[i].1.name.value != ParseName(segment).0
    ensures ParamChildrenInserted(cs, segment, rest, ctx)
      == Err(OverlappingNames(ParseName(segment).0, cs[i].1.name.value))
  {
  }

  /**
   * A parameter segment whose type has a child with the same name (or none)
   * reuses that child in place: the list keeps its length, order and keys,
   * only that child changes, and it carries the segment's name.
   */
  lemma ParamReused(cs: seq<(ParameterType, ParamNode)>, segment: string, rest: seq<string>, ctx: InsertionContext, i: nat)
    requires FirstKeyIndex(cs, ParseName(segment).1) == Some(i)
    requires cs[i].1.name.None? || cs[i].1.name == Some(ParseName(segment).0)
    requires ParamChildrenInserted(cs, segment, rest, ctx).Ok?
    ensures var r := ParamChildrenInserted(cs, segment, rest, ctx).value;
      && |r| == |cs|
      && (forall k :: 0 <= k < |cs| ==> r[k].0 == cs[k].0 && (k != i ==> r[k] == cs[k]))
      && r[i].1.name == Some(ParseName(segment).0)
      && r[i].1.ptype == cs[i].1.ptype
      && NodeInserted(cs[i].1.node, rest, ctx) == Ok(r[i].1.node)
  {
    var name := ParseName(segment).0;
    var p := cs[i].1.(name := Some(name));
    assert ParamInserted(p, rest, ctx).Ok?;
    assert p.node == cs[i].1.node && NodeInserted(p.node, rest, ctx).Ok?;
    var c := ParamInserted(p, rest, ctx).value;
    assert ParamChildrenInserted(cs, segment, rest, ctx).value == cs[i := (cs[i].0, c)];
  }

  /**
   * A parameter segment whose type has no child yet adds exactly one child,
   * named after the segment, and re-sorts the list stably by type: the
   * numeric children keep their relative order, with the new one after
   * them if it is numeric, and `String` children come last.
   */
  lemma ParamCreated(cs: seq<(ParameterType, ParamNode)>, segment: string, rest: seq<string>, ctx: InsertionContext)
    requires ParamChildrenValid(cs)
    requires FirstKeyIndex(cs, ParseName(segment).1).None?
    requires ParamChildrenInserted(cs, segment, rest, ctx).Ok?
    ensures var (name, t) := ParseName(segment);
      var r := ParamChildrenInserted(cs, segment, rest, ctx).value;
      && |r| == |cs| + 1
      && SortedByKey(r, ParamKey)
      && FirstKeyIndex(r, t).Some?
      && var x := r[FirstKeyIndex(r, t).value];
        && x.1.name == Some(name) && x.1.ptype == t
        && multiset(r) == multiset(cs) + multiset{x}
        && KeyClass(r, ParamKey, 0) == KeyClass(cs, ParamKey, 0) + (if t == ParameterType.String then [] else [x])
        && KeyClass(r, ParamKey, 1) == KeyClass(cs, ParamKey, 1) + (if t == ParameterType.String then [x] else [])
  {
    var (name, t) := ParseName(segment);
    var c := ParamInserted(ParamNode(Some(name), t, EmptyNode()), rest, ctx).value;
    var x := (t, c);
    var r := ParamChildrenInserted(cs, segment, rest, ctx).value;
    assert r == PushSorted(cs, x, ParamKey);
    assert c.name == Some(name) && c.ptype == t;
    PushSortedFacts(cs, x, ParamKey);
    assert r[FirstKeyIndex(r, t).value] == x;
    assert KeyClass([x], ParamKey, 0) == (if t == ParameterType.String then [] else [x]);
    assert KeyClass([x], ParamKey, 1) == (if t == ParameterType.String then [x] else []);
    SortStable(cs + [x], ParamKey, 0);
    SortStable(cs + [x], ParamKey, 1);
    KeyClassAppend(cs, [x], ParamKey, 0);
    KeyClassAppend(cs, [x], ParamKey, 1);
  }

  /**
   * Registering a parameter of some type under one name and then a parameter
   * of the same type under another name at the same position panics, in
   * whichever way the first registration went.
   */
  lemma {:induction false} SecondNameConflicts(
    cs: seq<(ParameterType, ParamNode)>, first: string, rest1: seq<string>, ctx1: InsertionContext,
    second: string, rest2: seq<string>, ctx2: InsertionContext)
    requires KeysDistinct(cs)
    requires ParseName(first).1 == ParseName(second).1 && ParseName(first).0 != ParseName(second).0
    requires ParamChildrenInserted(cs, first, rest1, ctx1).Ok?
    ensures ParamChildrenInserted(ParamChildrenInserted(cs, first, rest1, ctx1).value, second, rest2, ctx2)
      == Err(OverlappingNames(ParseName(second).0, ParseName(first).0))
  {
    var (name, t) := ParseName(first);
    var cs' := ParamChildrenInserted(cs, first, rest1, ctx1).value;
    match FirstKeyIndex(cs, t)
    case Some(i) =>
      var c := ParamInserted(cs[i].1.(name := Some(name)), rest1, ctx1).value;
      FirstKeyIndexReplace(cs, i, c, t);
      ConflictAt(cs', second, rest2, ctx2, i, name);
    case None =>
      var c := ParamInserted(ParamNode(Some(name), t, EmptyNode()), rest1, ctx1).value;
      PushSortedFacts(cs, (t, c), ParamKey);
      ConflictAt(cs', second, rest2, ctx2, FirstKeyIndex(cs', t).value, name);
  }

  /** A child of the segment's type already named otherwise makes the insertion a conflict. */
  lemma ConflictAt(cs: seq<(ParameterType, ParamNode)>, segment: string, rest: seq<string>, ctx: InsertionContext, i: nat, existing: string)
    requires FirstKeyIndex(cs, ParseName(segment).1) == Some(i)
    requires i < |cs| && cs[i].1.name == Some(existing) && existing != ParseName(segment).0
    ensures ParamChildrenInserted(cs, segment, rest, ctx) == Err(OverlappingNames(ParseName(segment).0, existing))
  {
  }
}
