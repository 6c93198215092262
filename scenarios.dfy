/**
 * The router's own examples worked through the model: the six routes of
 * `router_works` registered one after the other on a default router, the
 * tree each registration leaves behind, and what each of the example
 * requests is routed to; the OPTIONS listing of `router_handles_options`;
 * and a pattern registered with a trailing `/` that a default router does
 * not find again under that same path. In `router_works` handlers are named
 * by the status they answer with.
 */
module Scenarios {
  import opened Wrappers
  import opened Text
  import opened Integers
  import opened Http
  import opened Children
  import opened Tree
  import opened Lookup
  import opened Insertion
  import opened Routing

  function Leaf(h: HandlerId): Node {
    Node([], [], map[GET := h])
  }

  /** After `/`: the root answers GET. */
  function Tree1(): StaticNode {
    StaticNode(0, Leaf(200))
  }

  /** After `/abc`. */
  function Tree2(): StaticNode {
    StaticNode(1, Node([("abc", StaticNode(1, Leaf(201)))], [], map[GET := 200]))
  }

  /** After `/abc/def`. */
  function Tree3(): StaticNode {
    StaticNode(2, Node([("abc", StaticNode(2, Node([("def", StaticNode(1, Leaf(202)))], [], map[GET := 201])))], [], map[GET := 200]))
  }

  function AbcStatic(): seq<(string, StaticNode)> {
    [("def", StaticNode(1, Leaf(202))), ("ghi", StaticNode(1, Leaf(203)))]
  }

  /** After `/abc/ghi`: equal priorities keep insertion order. */
  function Tree4(): StaticNode {
    StaticNode(3, Node([("abc", StaticNode(3, Node(AbcStatic(), [], map[GET := 201])))], [], map[GET := 200]))
  }

  function IdChild(): (ParameterType, ParamNode) {
    (ParameterType.I32, ParamNode(Some("id"), ParameterType.I32, Leaf(204)))
  }

  function StringChild(): (ParameterType, ParamNode) {
    (ParameterType.String, ParamNode(Some("somestring"), ParameterType.String, Leaf(205)))
  }

  /** After `/abc/:id{i32}`. */
  function Tree5(): StaticNode {
    StaticNode(4, Node([("abc", StaticNode(4, Node(AbcStatic(), [IdChild()], map[GET := 201])))], [], map[GET := 200]))
  }

  /** After `/abc/:somestring`: the `String` child sorts after the `i32` one. */
  function Tree6(): StaticNode {
    StaticNode(5, Node([("abc", StaticNode(5, Node(AbcStatic(), [IdChild(), StringChild()], map[GET := 201])))], [], map[GET := 200]))
  }

  /** A pattern with one leading `/` trims to the rest. */
  lemma TrimmedPattern(t: string)
    requires !StartsWith(t, '/') && !EndsWith(t, '/')
    ensures Trim("/" + t, '/') == t
  {
    assert "/" + t == ['/'] + t;
    TrimIgnoresLeading(t, '/');
    TrimUntouched(t, '/');
  }

  lemma SplitTwo(a: string, b: string)
    requires '/' !in a && '/' !in b
    ensures Split(a + "/" + b, '/') == [a, b]
  {
    SplitJoin([a, b], '/');
    assert [a, b][1..] == [b];
  }

  /** A pattern `/a/b` of two non-empty segments trims and splits into them. */
  lemma TwoSegmentPattern(p: string, a: string, b: string)
    requires p == "/" + a + "/" + b
    requires a != [] && b != [] && '/' !in a && '/' !in b
    ensures Trim(p, '/') == a + "/" + b
    ensures Split(Trim(p, '/'), '/') == [a, b]
  {
    var t := a + "/" + b;
    assert t[0] == a[0] && t[|t| - 1] == b[|b| - 1];
    assert p == "/" + t;
    TrimmedPattern(t);
    SplitTwo(a, b);
  }

  /** Registering GET alone sets one entry. */
  lemma RegisterGet(routes: MethodMap, h: HandlerId)
    ensures Registered(routes, InsertionContext([GET], h)) == routes[GET := h]
  {
    var r := Registered(routes, InsertionContext([GET], h));
    assert r.Keys == routes.Keys + {GET};
  }

  /** A path ending at a new literal child: a leaf of priority 1 answering GET. */
  lemma NewLeaf(h: HandlerId)
    ensures StaticInserted(NewStaticNode(), [], InsertionContext([GET], h)) == Ok(StaticNode(1, Leaf(h)))
  {
    RegisterGet(map[], h);
  }

  lemma AddIndex()
    ensures AddedRoute(NewStaticNode(), [GET], "/", 200) == Ok(Tree1())
  {
    assert Trim("/", '/') == "";
    RegisterGet(map[], 200);
  }

  /** A pattern `/a` of one non-empty segment trims and splits into it. */
  lemma OneSegmentPattern(p: string, a: string)
    requires p == "/" + a
    requires a != [] && '/' !in a
    ensures Trim(p, '/') == a && Split(a, '/') == [a]
  {
    assert a[0] in a && a[|a| - 1] in a;
    TrimmedPattern(a);
    SplitJoin([a], '/');
  }

  lemma AbcPattern()
    ensures Trim("/abc", '/') == "abc" && Split("abc", '/') == ["abc"]
  {
    OneSegmentPattern("/abc", "abc");
  }

  lemma AddAbc()
    ensures AddedRoute(Tree1(), [GET], "/abc", 201) == Ok(Tree2())
  {
    AbcPattern();
    AddAbcInserted();
  }

  lemma AddAbcInserted()
    ensures StaticInserted(Tree1(), ["abc"], InsertionContext([GET], 201)) == Ok(Tree2())
  {
    var ctx := InsertionContext([GET], 201);
    NewLeaf(201);
    var x := ("abc", StaticNode(1, Leaf(201)));
    PushSortedLast([], x, StaticKey);
    assert NodeInserted(Tree1().node, ["abc"], ctx) == Ok(Node([x], [], map[GET := 200]));
  }

  /** Adding GET below the `abc` child, the rest of the path being `rest`. */
  lemma IntoAbc(root: StaticNode, abc: StaticNode, rest: seq<string>, ctx: InsertionContext, abc': StaticNode)
    requires root.node.staticChildren == [("abc", abc)] && root.node.paramChildren == []
    requires StaticInserted(abc, rest, ctx) == Ok(abc')
    ensures StaticInserted(root, ["abc"] + rest, ctx) ==
      Ok(StaticNode(root.priority + 1, root.node.(staticChildren := [("abc", abc')])))
  {
    var parts := ["abc"] + rest;
    assert parts[0] == "abc" && parts[1..] == rest;
    assert !StartsWith("abc", ':');
    assert FirstKeyIndex(root.node.staticChildren, "abc") == Some(0);
    var cs := root.node.staticChildren;
    assert cs[0].1 == abc && cs[0].0 == "abc";
    assert cs[0 := (cs[0].0, abc')] == [("abc", abc')];
    assert StaticChildrenInserted(cs, "abc", rest, ctx) == Ok([("abc", abc')]);
    assert NodeInserted(root.node, parts, ctx) == Ok(root.node.(staticChildren := [("abc", abc')]));
  }

  lemma AddAbcDefPattern()
    ensures Trim("/abc/def", '/') == "abc/def"
    ensures Split(Trim("/abc/def", '/'), '/') == ["abc", "def"]
  {
    assert "/abc/def" == "/" + "abc" + "/" + "def";
    TwoSegmentPattern("/abc/def", "abc", "def");
  }

  /** `IntoAbc` for a last segment `seg`, on a root written out. */
  lemma IntoAbcLast(p: nat, routes: MethodMap, abc: StaticNode, seg: string, ctx: InsertionContext, abc': StaticNode)
    requires StaticInserted(abc, [seg], ctx) == Ok(abc')
    ensures StaticInserted(StaticNode(p, Node([("abc", abc)], [], routes)), ["abc", seg], ctx) ==
      Ok(StaticNode(p + 1, Node([("abc", abc')], [], routes)))
  {
    IntoAbc(StaticNode(p, Node([("abc", abc)], [], routes)), abc, [seg], ctx, abc');
    assert ["abc", seg] == ["abc"] + [seg];
  }

  lemma AddAbcDef()
    ensures AddedRoute(Tree2(), [GET], "/abc/def", 202) == Ok(Tree3())
  {
    AddAbcDefPattern();
    AddAbcDefInserted();
  }

  lemma AddAbcDefInserted()
    ensures StaticInserted(Tree2(), ["abc", "def"], InsertionContext([GET], 202)) == Ok(Tree3())
  {
    var ctx := InsertionContext([GET], 202);
    NewLeaf(202);
    var x := ("def", StaticNode(1, Leaf(202)));
    PushSortedLast([], x, StaticKey);
    var abc := StaticNode(1, Leaf(201));
    assert StaticInserted(abc, ["def"], ctx) == Ok(StaticNode(2, Node([x], [], map[GET := 201])));
    IntoAbc(Tree2(), abc, ["def"], ctx, StaticNode(2, Node([x], [], map[GET := 201])));
    assert ["abc", "def"] == ["abc"] + ["def"];
  }

  lemma AddAbcGhiPattern()
    ensures Trim("/abc/ghi", '/') == "abc/ghi"
    ensures Split(Trim("/abc/ghi", '/'), '/') == ["abc", "ghi"]
  {
    assert "/abc/ghi" == "/" + "abc" + "/" + "ghi";
    TwoSegmentPattern("/abc/ghi", "abc", "ghi");
  }

  lemma AddAbcGhi()
    ensures AddedRoute(Tree3(), [GET], "/abc/ghi", 203) == Ok(Tree4())
  {
    AddAbcGhiPattern();
    AddAbcGhiInserted();
  }

  lemma AddAbcGhiInserted()
    ensures StaticInserted(Tree3(), ["abc", "ghi"], InsertionContext([GET], 203)) == Ok(Tree4())
  {
    var ctx := InsertionContext([GET], 203);
    NewLeaf(203);
    var d := ("def", StaticNode(1, Leaf(202)));
    var g := ("ghi", StaticNode(1, Leaf(203)));
    PushSortedLast([d], g, StaticKey);
    assert [d] + [g] == AbcStatic();
    var abc := StaticNode(2, Node([d], [], map[GET := 201]));
    assert FirstKeyIndex([d], "ghi").None?;
    assert NodeInserted(abc.node, ["ghi"], ctx) == Ok(Node(AbcStatic(), [], map[GET := 201]));
    assert StaticInserted(abc, ["ghi"], ctx) == Ok(StaticNode(3, Node(AbcStatic(), [], map[GET := 201])));
    IntoAbc(Tree3(), abc, ["ghi"], ctx, StaticNode(3, Node(AbcStatic(), [], map[GET := 201])));
    assert ["abc", "ghi"] == ["abc"] + ["ghi"];
  }

  lemma IdConcat()
    ensures ":" + "id" + "{" + "i32" + "}" == ":id{i32}"
  {
  }

  lemma IdSegment()
    ensures ParseName(":id{i32}") == ("id", ParameterType.I32)
  {
    ParseNameAnnotated("id", "i32");
    IdConcat();
  }

  lemma SomestringConcat()
    ensures ":" + "somestring" == ":somestring"
  {
  }

  lemma SomestringSegment()
    ensures ParseName(":somestring") == ("somestring", ParameterType.String)
  {
    ParseNamePlain("somestring");
    SomestringConcat();
  }

  lemma StringAfterId()
    ensures PushSorted([IdChild()], StringChild(), ParamKey) == [IdChild(), StringChild()]
  {
    PushSortedLast([IdChild()], StringChild(), ParamKey);
    assert [IdChild()] + [StringChild()] == [IdChild(), StringChild()];
  }

  lemma AddAbcIdPattern()
    ensures Trim("/abc/:id{i32}", '/') == "abc/:id{i32}"
    ensures Split(Trim("/abc/:id{i32}", '/'), '/') == ["abc", ":id{i32}"]
  {
    assert "/abc/:id{i32}" == "/" + "abc" + "/" + ":id{i32}";
    TwoSegmentPattern("/abc/:id{i32}", "abc", ":id{i32}");
  }

  lemma AddAbcId()
    ensures AddedRoute(Tree4(), [GET], "/abc/:id{i32}", 204) == Ok(Tree5())
  {
    AddAbcIdPattern();
    AddAbcIdInserted();
  }

  /** A last segment naming a parameter goes to the parameter children. */
  lemma ParamStep(n: Node, seg: string, ctx: InsertionContext, pc: seq<(ParameterType, ParamNode)>)
    requires StartsWith(seg, ':')
    requires ParamChildrenInserted(n.paramChildren, seg, [], ctx) == Ok(pc)
    ensures NodeInserted(n, [seg], ctx) == Ok(n.(paramChildren := pc))
  {
    assert [seg][1..] == [];
  }

  /** A parameter segment of a type with no child yet becomes a new named child. */
  lemma NewParamChild(cs: seq<(ParameterType, ParamNode)>, seg: string, ctx: InsertionContext, c: ParamNode)
    requires FirstKeyIndex(cs, ParseName(seg).1).None?
    requires ParamInserted(ParamNode(Some(ParseName(seg).0), ParseName(seg).1, EmptyNode()), [], ctx) == Ok(c)
    ensures ParamChildrenInserted(cs, seg, [], ctx) == Ok(PushSorted(cs, (ParseName(seg).1, c), ParamKey))
  {
  }

  /** A parameter child answering GET alone. */
  lemma ParamLeaf(name: string, t: ParameterType, h: HandlerId)
    ensures ParamInserted(ParamNode(Some(name), t, EmptyNode()), [], InsertionContext([GET], h))
      == Ok(ParamNode(Some(name), t, Leaf(h)))
  {
    RegisterGet(map[], h);
  }

  /** The `:id{i32}` segment as the only parameter child so far. */
  lemma IdChildInserted()
    ensures ParamChildrenInserted([], ":id{i32}", [], InsertionContext([GET], 204)) == Ok([IdChild()])
  {
    IdSegment();
    ParamLeaf("id", ParameterType.I32, 204);
    NewParamChild([], ":id{i32}", InsertionContext([GET], 204), IdChild().1);
    PushSortedLast([], IdChild(), ParamKey);
  }

  lemma BelowAbcId()
    ensures StaticInserted(StaticNode(3, Node(AbcStatic(), [], map[GET := 201])), [":id{i32}"], InsertionContext([GET], 204))
      == Ok(StaticNode(4, Node(AbcStatic(), [IdChild()], map[GET := 201])))
  {
    IdChildInserted();
    ParamStep(Node(AbcStatic(), [], map[GET := 201]), ":id{i32}", InsertionContext([GET], 204), [IdChild()]);
  }

  lemma AddAbcIdInserted()
    ensures StaticInserted(Tree4(), ["abc", ":id{i32}"], InsertionContext([GET], 204)) == Ok(Tree5())
  {
    BelowAbcId();
    IntoAbcLast(3, map[GET := 200], StaticNode(3, Node(AbcStatic(), [], map[GET := 201])), ":id{i32}",
      InsertionContext([GET], 204), StaticNode(4, Node(AbcStatic(), [IdChild()], map[GET := 201])));
  }

  lemma AddAbcStringPattern()
    ensures Trim("/abc/:somestring", '/') == "abc/:somestring"
    ensures Split(Trim("/abc/:somestring", '/'), '/') == ["abc", ":somestring"]
  {
    assert "/abc/:somestring" == "/" + "abc" + "/" + ":somestring";
    TwoSegmentPattern("/abc/:somestring", "abc", ":somestring");
  }

  lemma AddAbcString()
    ensures AddedRoute(Tree5(), [GET], "/abc/:somestring", 205) == Ok(Tree6())
  {
    AddAbcStringPattern();
    AddAbcStringInserted();
  }

  /** The `:somestring` segment pushed after the `i32` child. */
  lemma StringChildInserted()
    ensures ParamChildrenInserted([IdChild()], ":somestring", [], InsertionContext([GET], 205)) == Ok([IdChild(), StringChild()])
  {
    SomestringSegment();
    ParamLeaf("somestring", ParameterType.String, 205);
    assert FirstKeyIndex([IdChild()], ParameterType.String).None?;
    NewParamChild([IdChild()], ":somestring", InsertionContext([GET], 205), StringChild().1);
    StringAfterId();
  }

  lemma BelowAbcString()
    ensures StaticInserted(StaticNode(4, Node(AbcStatic(), [IdChild()], map[GET := 201])), [":somestring"], InsertionContext([GET], 205))
      == Ok(StaticNode(5, AbcNode()))
  {
    StringChildInserted();
    ParamStep(Node(AbcStatic(), [IdChild()], map[GET := 201]), ":somestring", InsertionContext([GET], 205), [IdChild(), StringChild()]);
  }

  lemma AddAbcStringInserted()
    ensures StaticInserted(Tree5(), ["abc", ":somestring"], InsertionContext([GET], 205)) == Ok(Tree6())
  {
    BelowAbcString();
    IntoAbcLast(4, map[GET := 200], StaticNode(4, Node(AbcStatic(), [IdChild()], map[GET := 201])), ":somestring",
      InsertionContext([GET], 205), StaticNode(5, AbcNode()));
  }

  // Lookups in the final tree.

  function AbcNode(): Node {
    Node(AbcStatic(), [IdChild(), StringChild()], map[GET := 201])
  }

  /** A default router answers GET on `/rest` when the tree maps `rest` to a GET handler. */
  lemma RouteGet(router: Router, rest: string, h: HandlerId, params: RouteParameters)
    requires !router.redirectTrailing && !StartsWith(rest, '/')
    requires RouteTo(router.tree.root, rest) == Some((map[GET := h], params))
    ensures router.Route("/" + rest, GET) == Found(h, params)
  {
    OneLeadingSlash(rest);
  }

  /** A segment no static child takes, caught by a parameter child that ends the route. */
  lemma ParamLeafFound(seg: string, p: ParamNode, h: HandlerId, params: RouteParameters)
    requires FirstKeyIndex(AbcStatic(), seg).None?
    requires ParamChildrenFind(AbcNode().paramChildren, seg, NoParameters()) == Some((p, params))
    requires p.node == Leaf(h)
    ensures Find(AbcNode(), [seg], NoParameters()) == Some((map[GET := h], params))
  {
    assert [seg][1..] == [];
  }

  /** Below `abc`, the remaining segment `seg`. */
  lemma FindBelowAbc(seg: string, r: Option<(MethodMap, RouteParameters)>)
    requires '/' !in seg
    requires Find(AbcNode(), [seg], NoParameters()) == r
    ensures RouteTo(Tree6(), "abc/" + seg) == r
  {
    SplitTwo("abc", seg);
    assert "abc" + "/" + seg == "abc/" + seg;
    var parts := ["abc", seg];
    assert FirstKeyIndex(Tree6().node.staticChildren, "abc") == Some(0);
    assert StaticChildrenFind(Tree6().node.staticChildren, "abc") == Some(StaticNode(5, AbcNode()));
    assert parts[1..] == [seg];
  }

  lemma LookupIndex()
    ensures RouteTo(Tree6(), "") == Some((map[GET := 200], NoParameters()))
  {
  }

  lemma LookupAbc()
    ensures RouteTo(Tree6(), "abc") == Some((map[GET := 201], NoParameters()))
  {
    assert Split("abc", '/') == ["abc"];
    assert FirstKeyIndex(Tree6().node.staticChildren, "abc") == Some(0);
  }

  lemma LookupAbcDef()
    ensures RouteTo(Tree6(), "abc/def") == Some((map[GET := 202], NoParameters()))
  {
    assert FirstKeyIndex(AbcStatic(), "def") == Some(0);
    assert Find(AbcNode(), ["def"], NoParameters()) == Some((map[GET := 202], NoParameters()));
    FindBelowAbc("def", Some((map[GET := 202], NoParameters())));
    assert "abc/" + "def" == "abc/def";
  }

  lemma LookupAbcGhi()
    ensures RouteTo(Tree6(), "abc/ghi") == Some((map[GET := 203], NoParameters()))
  {
    assert FirstKeyIndex(AbcStatic(), "ghi") == Some(1);
    assert Find(AbcNode(), ["ghi"], NoParameters()) == Some((map[GET := 203], NoParameters()));
    FindBelowAbc("ghi", Some((map[GET := 203], NoParameters())));
    assert "abc/" + "ghi" == "abc/ghi";
  }

  /** `123` parses as an `i32`. */
  lemma Parse123()
    ensures ParseAs(ParameterType.I32, "123") == Some(Parameter.I32(123))
  {
    ParseI32RoundTrip(123);
    assert FormatI32(123) == "123";
  }

  lemma FindAbc123()
    ensures Find(AbcNode(), ["123"], NoParameters()) ==
      Some((map[GET := 204], RouteParameters(map["id" := Parameter.I32(123)], [Parameter.I32(123)])))
  {
    var params := RouteParameters(map["id" := Parameter.I32(123)], [Parameter.I32(123)]);
    Parse123();
    assert Record(NoParameters(), Some("id"), Parameter.I32(123)) == params;
    assert ParamChildrenFind([IdChild(), StringChild()], "123", NoParameters()) == Some((IdChild().1, params));
    assert FirstKeyIndex(AbcStatic(), "123").None?;
    ParamLeafFound("123", IdChild().1, 204, params);
  }

  lemma LookupAbc123()
    ensures RouteTo(Tree6(), "abc/123") ==
      Some((map[GET := 204], RouteParameters(map["id" := Parameter.I32(123)], [Parameter.I32(123)])))
  {
    FindAbc123();
    FindBelowAbc("123", Some((map[GET := 204], RouteParameters(map["id" := Parameter.I32(123)], [Parameter.I32(123)]))));
    Abc123Concat();
  }

  lemma Abc123Concat()
    ensures "abc/" + "123" == "abc/123"
  {
  }

  lemma StringPathConcat()
    ensures "abc/" + "striiiiing" == "abc/striiiiing"
  {
  }

  lemma FindAbcString()
    ensures Find(AbcNode(), ["striiiiing"], NoParameters()) ==
      Some((map[GET := 205], RouteParameters(map["somestring" := Parameter.String("striiiiing")], [Parameter.String("striiiiing")])))
  {
    var params := RouteParameters(map["somestring" := Parameter.String("striiiiing")], [Parameter.String("striiiiing")]);
    assert ParseI32("striiiiing").None?;
    assert ParseAs(ParameterType.I32, "striiiiing").None?;
    assert Record(NoParameters(), Some("somestring"), Parameter.String("striiiiing")) == params;
    assert ParamChildrenFind([IdChild(), StringChild()], "striiiiing", NoParameters()) == Some((StringChild().1, params));
    assert FirstKeyIndex(AbcStatic(), "striiiiing").None?;
    ParamLeafFound("striiiiing", StringChild().1, 205, params);
  }

  lemma LookupAbcString()
    ensures RouteTo(Tree6(), "abc/striiiiing") ==
      Some((map[GET := 205], RouteParameters(map["somestring" := Parameter.String("striiiiing")], [Parameter.String("striiiiing")])))
  {
    FindAbcString();
    FindBelowAbc("striiiiing", Some((map[GET := 205],
      RouteParameters(map["somestring" := Parameter.String("striiiiing")], [Parameter.String("striiiiing")]))));
    StringPathConcat();
  }

  /** `router_works`: each example request reaches its own handler. */
  method RouterWorks() returns (router: Router)
    ensures router.Route("/", GET) == Found(200, NoParameters())
    ensures router.Route("/abc", GET) == Found(201, NoParameters())
    ensures router.Route("/abc/def", GET) == Found(202, NoParameters())
    ensures router.Route("/abc/ghi", GET) == Found(203, NoParameters())
    ensures router.Route("/abc/123", GET) ==
      Found(204, RouteParameters(map["id" := Parameter.I32(123)], [Parameter.I32(123)]))
    ensures router.Route("/abc/striiiiing", GET) ==
      Found(205, RouteParameters(map["somestring" := Parameter.String("striiiiing")], [Parameter.String("striiiiing")]))
  {
    router := new Router();
    AddIndex();
    var conflict := router.Add([GET], "/", 200);
    AddAbc();
    conflict := router.Add([GET], "/abc", 201);
    AddAbcDef();
    conflict := router.Add([GET], "/abc/def", 202);
    AddAbcGhi();
    conflict := router.Add([GET], "/abc/ghi", 203);
    AddAbcId();
    conflict := router.Add([GET], "/abc/:id{i32}", 204);
    AddAbcString();
    conflict := router.Add([GET], "/abc/:somestring", 205);
    assert router.tree.root == Tree6();
    RoutesOfTree6(router);
  }

  lemma RouteIndex(router: Router)
    requires router.tree.root == Tree6() && !router.redirectTrailing
    ensures router.Route("/", GET) ==
      Found(200, NoParameters())
  {
    LookupIndex();
    RouteGet(router, "", 200, NoParameters());
    RouteIndexPath();
  }

  lemma RouteIndexPath()
    ensures "/" + "" == "/"
  {
  }

  lemma RouteAbc(router: Router)
    requires router.tree.root == Tree6() && !router.redirectTrailing
    ensures router.Route("/abc", GET) ==
      Found(201, NoParameters())
  {
    LookupAbc();
    RouteGet(router, "abc", 201, NoParameters());
    RouteAbcPath();
  }

  lemma RouteAbcPath()
    ensures "/" + "abc" == "/abc"
  {
  }

  lemma RouteAbcDef(router: Router)
    requires router.tree.root == Tree6() && !router.redirectTrailing
    ensures router.Route("/abc/def", GET) ==
      Found(202, NoParameters())
  {
    LookupAbcDef();
    RouteGet(router, "abc/def", 202, NoParameters());
    RouteAbcDefPath();
  }

  lemma RouteAbcDefPath()
    ensures "/" + "abc/def" == "/abc/def"
  {
  }

  lemma RouteAbcGhi(router: Router)
    requires router.tree.root == Tree6() && !router.redirectTrailing
    ensures router.Route("/abc/ghi", GET) ==
      Found(203, NoParameters())
  {
    LookupAbcGhi();
    RouteGet(router, "abc/ghi", 203, NoParameters());
    RouteAbcGhiPath();
  }

  lemma RouteAbcGhiPath()
    ensures "/" + "abc/ghi" == "/abc/ghi"
  {
  }

  lemma RouteAbc123(router: Router)
    requires router.tree.root == Tree6() && !router.redirectTrailing
    ensures router.Route("/abc/123", GET) ==
      Found(204, RouteParameters(map["id" := Parameter.I32(123)], [Parameter.I32(123)]))
  {
    LookupAbc123();
    RouteGet(router, "abc/123", 204, RouteParameters(map["id" := Parameter.I32(123)], [Parameter.I32(123)]));
    RouteAbc123Path();
  }

  lemma RouteAbc123Path()
    ensures "/" + "abc/123" == "/abc/123"
  {
  }

  lemma RouteAbcString(router: Router)
    requires router.tree.root == Tree6() && !router.redirectTrailing
    ensures router.Route("/abc/striiiiing", GET) ==
      Found(205, RouteParameters(map["somestring" := Parameter.String("striiiiing")], [Parameter.String("striiiiing")]))
  {
    LookupAbcString();
    RouteGet(router, "abc/striiiiing", 205, RouteParameters(map["somestring" := Parameter.String("striiiiing")], [Parameter.String("striiiiing")]));
    RouteAbcStringPath();
  }

  lemma RouteAbcStringPath()
    ensures "/" + "abc/striiiiing" == "/abc/striiiiing"
  {
  }

  // `router_handles_options`: GET and then PUT on `/abc`.

  /** A root with a lone literal child `abc` answering GET with `h`. */
  function AbcOnly(h: HandlerId): StaticNode {
    StaticNode(1, Node([("abc", StaticNode(1, Leaf(h)))], [], map[]))
  }

  /** The same after PUT on `/abc` with `h'`. */
  function AbcGetPut(h: HandlerId, h': HandlerId): StaticNode {
    StaticNode(2, Node([("abc", StaticNode(2, Node([], [], map[GET := h, PUT := h'])))], [], map[]))
  }

  /** Registering one method sets one entry. */
  lemma RegisterOne(routes: MethodMap, m: Method, h: HandlerId)
    ensures Registered(routes, InsertionContext([m], h)) == routes[m := h]
  {
    var r := Registered(routes, InsertionContext([m], h));
    assert r.Keys == routes.Keys + {m};
  }

  lemma AbcOnlyInserted(h: HandlerId)
    ensures StaticInserted(NewStaticNode(), ["abc"], InsertionContext([GET], h)) == Ok(AbcOnly(h))
  {
    var ctx := InsertionContext([GET], h);
    NewLeaf(h);
    var x := ("abc", StaticNode(1, Leaf(h)));
    PushSortedLast([], x, StaticKey);
    assert NodeInserted(EmptyNode(), ["abc"], ctx) == Ok(Node([x], [], map[]));
  }

  lemma AddGetAbc(h: HandlerId)
    ensures AddedRoute(NewStaticNode(), [GET], "/abc", h) == Ok(AbcOnly(h))
  {
    AbcPattern();
    AbcOnlyInserted(h);
  }

  /** PUT registered on the `abc` leaf next to its GET. */
  lemma PutIntoLeaf(h: HandlerId, h': HandlerId)
    ensures StaticInserted(StaticNode(1, Leaf(h)), [], InsertionContext([PUT], h'))
      == Ok(StaticNode(2, Node([], [], map[GET := h, PUT := h'])))
  {
    RegisterOne(map[GET := h], PUT, h');
  }

  lemma PutAbcInserted(h: HandlerId, h': HandlerId)
    ensures StaticInserted(AbcOnly(h), ["abc"], InsertionContext([PUT], h')) == Ok(AbcGetPut(h, h'))
  {
    PutIntoLeaf(h, h');
    IntoAbc(AbcOnly(h), StaticNode(1, Leaf(h)), [], InsertionContext([PUT], h'),
      StaticNode(2, Node([], [], map[GET := h, PUT := h'])));
    assert ["abc"] + [] == ["abc"];
  }

  lemma AddPutAbc(h: HandlerId, h': HandlerId)
    ensures AddedRoute(AbcOnly(h), [PUT], "/abc", h') == Ok(AbcGetPut(h, h'))
  {
    AbcPattern();
    PutAbcInserted(h, h');
  }

  /** A default router reads `/a` as `a`. */
  lemma OneLeadingSlash(a: string)
    requires !StartsWith(a, '/')
    ensures RequestPath(false, "/" + a) == a
  {
    assert "/" + a == ['/'] + a;
    TrimStartIgnoresLeading(a, '/');
  }

  /** A default router reads `/abc` as the path `abc`. */
  lemma RequestAbc()
    ensures RequestPath(false, "/abc") == "abc"
  {
    RouteAbcPath();
    OneLeadingSlash("abc");
  }

  /** A path of one segment naming the root's only child reaches that child. */
  lemma LoneChildFound(root: StaticNode, a: string, child: StaticNode)
    requires root.node.staticChildren == [(a, child)]
    requires a != [] && Split(a, '/') == [a]
    ensures RouteTo(root, a) == Some((child.node.routes, NoParameters()))
  {
    assert FirstKeyIndex(root.node.staticChildren, a) == Some(0);
    assert StaticChildrenFind(root.node.staticChildren, a) == Some(child);
    assert [a][1..] == [];
    assert Find(child.node, [], NoParameters()) == Some((child.node.routes, NoParameters()));
  }

  lemma LookupGetPut(h: HandlerId, h': HandlerId)
    ensures RouteTo(AbcGetPut(h, h'), "abc") == Some((map[GET := h, PUT := h'], NoParameters()))
  {
    AbcPattern();
    LoneChildFound(AbcGetPut(h, h'), "abc", StaticNode(2, Node([], [], map[GET := h, PUT := h'])));
  }

  lemma OptionsOfGetPut(router: Router, h: HandlerId, h': HandlerId)
    requires router.tree.root == AbcGetPut(h, h') && !router.redirectTrailing && router.handleOptions
    ensures router.Route("/abc", OPTIONS) == Options(multiset{GET, PUT, OPTIONS})
  {
    RequestAbc();
    LookupGetPut(h, h');
    var keys := map[GET := h, PUT := h'].Keys;
    assert keys == {GET, PUT};
    assert multiset(keys) == multiset{GET, PUT};
  }

  /**
   * `router_handles_options`: after GET and PUT on `/abc`, an OPTIONS
   * request lists exactly GET, PUT and OPTIONS.
   */
  method RouterHandlesOptions() returns (router: Router)
    ensures router.Route("/abc", OPTIONS) == Options(multiset{GET, PUT, OPTIONS})
    ensures |router.Route("/abc", OPTIONS).methods| == 3
  {
    router := new Router();
    router.HandleOptions(true);
    AddGetAbc(1);
    var conflict := router.Add([GET], "/abc", 1);
    AddPutAbc(1, 2);
    conflict := router.Add([PUT], "/abc", 2);
    OptionsOfGetPut(router, 1, 2);
  }

  // A pattern with a trailing `/` on a router that does not redirect.

  /** `/abc/` is registered as `abc`: registration trims both ends. */
  lemma AddTrailingAbc(h: HandlerId)
    ensures AddedRoute(NewStaticNode(), [GET], "/abc/", h) == Ok(AbcOnly(h))
  {
    assert "/abc/" == "/abc" + ['/'];
    TrimIgnoresTrailing("/abc", '/');
    AbcPattern();
    AbcOnlyInserted(h);
  }

  /** A default router reads `/abc/` as `abc/`: routing trims only the start. */
  lemma RequestAbcSlash()
    ensures RequestPath(false, "/abc/") == "abc/"
  {
    AbcSlashConcat();
    OneLeadingSlash("abc/");
  }

  lemma AbcSlashConcat()
    ensures "/" + "abc/" == "/abc/" && "abc" + "/" + "" == "abc/"
  {
  }

  /** `abc/` splits into `abc` and an empty last segment. */
  lemma SplitAbcSlash()
    ensures Split("abc/", '/') == ["abc", ""]
  {
    AbcSlashConcat();
    SplitTwo("abc", "");
  }

  lemma LookupAbcSlash(h: HandlerId)
    ensures RouteTo(AbcOnly(h), "abc/").None?
  {
    SplitAbcSlash();
    var parts := ["abc", ""];
    assert FirstKeyIndex(AbcOnly(h).node.staticChildren, "abc") == Some(0);
    assert parts[1..] == [""];
    assert Find(Leaf(h), [""], NoParameters()).None?;
  }

  /**
   * On a router that does not redirect trailing slashes, a route registered
   * as `/abc/` is not found under `/abc/`, only under `/abc`.
   */
  lemma TrailingSlashPatternMissed(router: Router, h: HandlerId)
    requires AddedRoute(NewStaticNode(), [GET], "/abc/", h) == Ok(router.tree.root)
    requires !router.redirectTrailing
    ensures router.Route("/abc/", GET) == PathNotFound
    ensures router.Route("/abc", GET) == Found(h, NoParameters())
  {
    AddTrailingAbc(h);
    RequestAbcSlash();
    LookupAbcSlash(h);
    RequestAbc();
    LookupAbcOnly(h);
  }

  lemma LookupAbcOnly(h: HandlerId)
    ensures RouteTo(AbcOnly(h), "abc") == Some((map[GET := h], NoParameters()))
  {
    AbcPattern();
    LoneChildFound(AbcOnly(h), "abc", StaticNode(1, Leaf(h)));
  }

  lemma RoutesOfTree6(router: Router)
    requires router.tree.root == Tree6() && !router.redirectTrailing
    ensures router.Route("/", GET) == Found(200, NoParameters())
    ensures router.Route("/abc", GET) == Found(201, NoParameters())
    ensures router.Route("/abc/def", GET) == Found(202, NoParameters())
    ensures router.Route("/abc/ghi", GET) == Found(203, NoParameters())
    ensures router.Route("/abc/123", GET) ==
      Found(204, RouteParameters(map["id" := Parameter.I32(123)], [Parameter.I32(123)]))
    ensures router.Route("/abc/striiiiing", GET) ==
      Found(205, RouteParameters(map["somestring" := Parameter.String("striiiiing")], [Parameter.String("striiiiing")]))
  {
    RouteIndex(router);
    RouteAbc(router);
    RouteAbcDef(router);
    RouteAbcGhi(router);
    RouteAbc123(router);
    RouteAbcString(router);
  }
}
