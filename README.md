# plaid routing and CORS, modelled in Dafny

This project models the request routing of the `plaid` web framework, along with its CORS middleware.

**Route trie.** `RouteTree` is a trie over the `/`-separated segments of a route pattern. It has two kinds of node:

- A static node is reached by a literal segment. It carries a priority counter.
- A parameter node is reached by any segment that parses as its type: `u32`, `i32` or `String`, written `:name{u32}`, `:name{i32}` or `:name`.

**Node contents.** Each node keeps:

- its static children as a list. New children are sorted in by descending priority.
- its parameter children as a list. New children are sorted in so that numeric types come before `String`.
- a map from HTTP method to handler.

**Adding a route.** Insertion walks the pattern one segment at a time. Missing children are created along the way. The route's methods are registered at the last node. Two differently named parameters of the same type at the same place make `add_route` panic.

**Lookup.** Lookup walks the request path. At each node it tries the static children first, then the first parameter child whose type parses the segment. Each value it parses is recorded in `RouteParameters`.

**Router.** `Router` wraps the tree and adds three things:

- optional trailing-slash stripping;
- the `OPTIONS` listing;
- the four outcomes `Found`, `PathNotFound`, `MethodNotFound` and `Options`.

**CORS.** The middleware is configured by builder calls. It classifies each request as one of four outcomes:

- not CORS;
- a regular CORS request;
- a valid preflight;
- one of three rejections.

It also answers a valid preflight with the `Access-Control-*` headers.

**How the model is built.**

- Nodes are datatypes. In the source each node is an exclusively owned `Box`, so an update in place is modelled as a new value.
- Insertion is written as recursive methods, and the `set` and `find_mut` loops as `while` loops. Each method is proved equal to a specification function (`NodeInserted`, `Registered`, `FirstKeyIndex`).
- The lemmas are stated over those functions.
- `RouteTree` and `Router` are classes whose methods update their fields.
- The CORS builders take the configuration by value and return it. They are therefore functions, and the list builders are loop methods.
- A panic is an `Err` outcome.

**Files.**

| file | what it holds |
|---|---|
| `wrappers.dfy` | `Option` and `Result` |
| `text.dfy` | the string operations the source relies on: `find`, `trim_matches`, `trim_start_matches`, `split`, `join` |
| `integers.dfy` | 32-bit integers and their decimal parsing |
| `http.dfy` | methods, header names and header values |
| `children.dfy` | the `Few` child lists: linear search and the stable sort after a push |
| `tree.dfy` | parameter types, nodes and the shape invariant |
| `lookup.dfy` | `find` and `route_to` |
| `insertion.dfy` | `insert`, `set` and `add_route` |
| `insertion_facts.dfy` | what insertion preserves and establishes |
| `router.dfy` | the `Router` |
| `cors.dfy` | the CORS middleware |
| `scenarios.dfy` | the repository's `router_works` and `router_handles_options` examples, and a pattern with a trailing `/`, worked through the model |

## Model

| member | source | states |
|---|---|---|
| Text.IndexOf | plaid/src/routes/tree.rs:220-221 | `find` gives the first position holding the character, and `None` exactly when the character does not occur |
| Text.TrimStart | plaid/src/routes/tree.rs:238 | `trim_start_matches` removes only copies of the character, and the result no longer starts with it |
| Text.TrimEnd | plaid/src/routes.rs:91 | removes only trailing copies of the character, and the result no longer ends with it |
| Text.Trim | plaid/src/routes.rs:91 | `trim_matches` leaves neither end equal to the character, and is the identity on text without it |
| Text.Split | plaid/src/routes/tree.rs:45 | `split` yields at least one piece, no piece contains the separator, and joining the pieces with it gives the input back |
| Text.SplitJoin | plaid/src/routes/tree.rs:67 | splitting the join of separator-free pieces (at least one) gives those pieces back |
| Text.IndexOfAfter | plaid/src/routes/tree.rs:220 | in `a + c + b` with `c` not in `a`, `find(c)` is `len(a)` |
| Text.TrimIgnoresLeading | plaid/src/routes.rs:91 | one more leading separator does not change `trim_matches` |
| Text.TrimIgnoresTrailing | plaid/src/routes.rs:91 | one more trailing separator does not change `trim_matches` |
| Text.TrimStartIgnoresLeading | plaid/src/routes.rs:93 | one more leading separator does not change `trim_start_matches` |
| Text.TrimStartAppend | plaid/src/routes.rs:93 | when something survives `trim_start_matches`, appended text is kept unchanged |
| Text.TrimUntouched | plaid/src/routes.rs:90-94 | text that neither starts nor ends with the separator is left as is by both trims |
| Integers.ParseU32RoundTrip | plaid/src/routes/tree.rs:475 | `parse::<u32>` reads back the decimal form of every `u32` |
| Integers.ParseI32RoundTrip | plaid/src/routes/tree.rs:476 | `parse::<i32>` reads back the decimal form, with a `-` when negative, of every `i32` |
| Integers.ParseU32FitsI32 | plaid/src/routes/tree.rs:475-476 | a segment that parses as a `u32` below 2^31 parses as the same `i32` |
| Integers.SignRules | plaid/src/routes/tree.rs:475-476 | `u32` rejects a `-` sign; a lone sign is rejected by both; `-2147483648` is an `i32` and `2147483648` is not |
| Integers.NegativeDecimal | plaid/src/routes/tree.rs:476 | `-` then the digits of `n` parse as an `i32` exactly when `n` is at most 2^31, giving `-n` |
| Integers.PositiveDecimal | plaid/src/routes/tree.rs:476 | the digits of `n` parse as an `i32` exactly when `n` is below 2^31, giving `n` |
| Integers.LoneSignRejected | plaid/src/routes/tree.rs:475-476 | a sign with no digits parses as neither type |
| Integers.DecimalValue | plaid/src/routes/tree.rs:475 | the decimal digits of `n` have value `n` |
| Http.MethodFromBytes | plaid-cors-middleware/src/lib.rs:217 | `Method::from_bytes` fails exactly on non-tokens, and otherwise gives a method whose text is the input |
| Http.MethodRoundTrip | plaid-cors-middleware/src/lib.rs:217 | every well-formed method is read back from its own text |
| Http.ParseHeaderName | plaid-cors-middleware/src/lib.rs:82-92 | a header name parses exactly from a token, and is its lower-cased form |
| Http.ToStr | plaid-cors-middleware/src/lib.rs:240 | `to_str().unwrap_or_default()` is the value when it is visible ASCII, and empty otherwise |
| Children.FirstKeyIndex | plaid/src/routes/tree.rs:380-394 | the linear search returns the first child with the key, and `None` exactly when no child has it |
| Children.FindMut | plaid/src/routes/tree.rs:396-408 | the `find_mut` loop finds the same child as the search |
| Children.FirstKeyIndexOfMember | plaid/src/routes/tree.rs:380-394 | with distinct keys, the search for a member's key finds that member |
| Children.FirstKeyIndexReplace | plaid/src/routes/tree.rs:412-414 | updating a child in place does not change where any key is found |
| Children.InsertSorted | plaid/src/routes/tree.rs:433 | inserting into a sorted list keeps it sorted |
| Children.SortSorted | plaid/src/routes/tree.rs:433 | `sort_by` leaves the list sorted by the key |
| Children.SortPermutes | plaid/src/routes/tree.rs:537 | `sort_by` is a permutation: same multiset, same length |
| Children.InsertPermutes | plaid/src/routes/tree.rs:537 | one sorted insertion adds exactly the new element |
| Children.SortStable | plaid/src/routes/tree.rs:433 | `sort_by` is stable: the elements with equal keys keep their order |
| Children.InsertStable | plaid/src/routes/tree.rs:537 | an insertion appends the new element to the end of its key class and leaves the other classes alone |
| Children.SortKeepsDistinct | plaid/src/routes/tree.rs:430-433 | sorting keeps the child keys distinct |
| Children.SortOfSorted | plaid/src/routes/tree.rs:433 | sorting an already sorted list changes nothing |
| Children.PushSortedLast | plaid/src/routes/tree.rs:534-537 | a pushed child whose key is not below any other ends up last |
| Children.PushSortedFacts | plaid/src/routes/tree.rs:430-433 | push-then-sort of a child with a new key: the result is sorted, a permutation of the list plus the child, has distinct keys, and the search finds the child |
| Children.PushSortedMembers | plaid/src/routes/tree.rs:534-537 | after push-then-sort, every entry is the new child or an old one |
| Children.PushSortedOtherKey | plaid/src/routes/tree.rs:534-537 | push-then-sort does not change what the search finds for any other key |
| Tree.Cmp | plaid/src/routes/tree.rs:207-216 | `String` is greater than both numeric types, and the numeric types are equal to each other |
| Tree.CmpIsRankOrder | plaid/src/routes/tree.rs:201-216 | `cmp` is the order of a rank that puts `String` last |
| Tree.ParseName | plaid/src/routes/tree.rs:237-262 | the name is the prefix of the colon-stripped segment that stops at its first `{` (all of it when there is none), and the type is read as `From<&str>` reads it |
| Tree.ParseNameAnnotated | plaid/src/routes/tree.rs:192-193 | `:name{ty}` parses to `name` and the type `ty` names |
| Tree.AnnotatedType | plaid/src/routes/tree.rs:218-232 | the type read from `name{ty}` is the one `ty` names |
| Tree.ParseNamePlain | plaid/src/routes/tree.rs:237-262 | `:name` without braces is a `String` parameter called `name` |
| Tree.RouteParameters.FirstI32 | plaid/src/routes/tree.rs:92-98 | the first ordered value, exactly when it is an `i32` |
| Tree.RouteParameters.GetI32 | plaid/src/routes/tree.rs:100-106 | the named value, exactly when it exists and is an `i32` |
| Tree.RouteParameters.GetString | plaid/src/routes/tree.rs:108-114 | the named value, exactly when it exists and is a string |
| Tree.NumericBeforeString | plaid/src/routes/tree.rs:536-537 | in a tree built by insertion, every numeric parameter child precedes every `String` one |
| Lookup.ParseAs | plaid/src/routes/tree.rs:474-478 | `String` accepts every segment; `u32` and `i32` accept exactly what `parse` accepts, and yield its value |
| Lookup.ParamChildrenFind | plaid/src/routes/tree.rs:444-489 | `None` exactly when no parameter child parses the segment; otherwise the first that does, with its value recorded |
| Lookup.Find | plaid/src/routes/tree.rs:171-189 | a successful walk only extends the parameters: the old ones are a prefix, at most one value is added per segment, and named keys are kept |
| Lookup.RouteTo | plaid/src/routes/tree.rs:62-71 | the empty path is the root's routes with no parameters; otherwise at most one parameter per path segment |
| Lookup.StaticCommits | plaid/src/routes/tree.rs:176-181 | a matching static child is committed to: lookup never falls back to parameter children |
| Lookup.ParamChildTaken | plaid/src/routes/tree.rs:180-181 | without a static match, lookup continues in the first parameter child that parses the segment |
| Lookup.NothingAccepts | plaid/src/routes/tree.rs:182-184 | without a static match or an accepting parameter child, lookup fails |
| Lookup.StringChildAcceptsAll | plaid/src/routes/tree.rs:477 | a `String` parameter child accepts every segment |
| Lookup.NumericWinsOverString | plaid/src/routes/tree.rs:536-537 | in a valid node, a segment that parses as a numeric child's type is taken by a numeric child, never by the `String` one |
| Insertion.Registered | plaid/src/routes/tree.rs:165-169 | `set` maps each given method to the handler and keeps every other method's handler |
| Insertion.SetRoutes | plaid/src/routes/tree.rs:308-312 | the `set` loop computes `Registered` |
| Insertion.InsertNode | plaid/src/routes/tree.rs:292-306 | the per-node dispatch: a `:` segment goes to the parameter children, any other segment to the static ones, and no segment means `set` |
| Insertion.InsertStatic | plaid/src/routes/tree.rs:145-163 | `StaticNode::insert` bumps the priority, then dispatches |
| Insertion.InsertParam | plaid/src/routes/tree.rs:292-306 | `ParameterNode::insert` dispatches without a priority |
| Insertion.InsertStaticChild | plaid/src/routes/tree.rs:410-440 | insert into an existing child with the segment, or push a new child and sort by descending priority |
| Insertion.InsertParamChild | plaid/src/routes/tree.rs:491-544 | find the child of the parsed type; a different existing name is the overlapping-names panic, a missing name is set; otherwise push a new named child and sort by type |
| Insertion.RouteTree.constructor | plaid/src/routes/tree.rs:24-34 | the root is an empty static node with priority 0 |
| Insertion.RouteTree.AddRoute | plaid/src/routes/tree.rs:36-56 | the root becomes `AddedRoute`: the trimmed pattern `""` sets the root's routes, and anything else is inserted segment by segment; a panic becomes the returned conflict |
| InsertionFacts.NodeInsertedValid | plaid/src/routes/tree.rs:292-306 | insertion preserves the shape invariant: distinct keys, no `:` static keys, typed and named parameter children in `cmp` order |
| InsertionFacts.StaticInsertedValid | plaid/src/routes/tree.rs:145-163 | a static node's insertion preserves the shape invariant |
| InsertionFacts.ParamInsertedValid | plaid/src/routes/tree.rs:292-306 | a parameter node's insertion preserves the invariant, name and type |
| InsertionFacts.StaticChildrenInsertedValid | plaid/src/routes/tree.rs:410-440 | inserting under a static segment keeps the static child list valid |
| InsertionFacts.StaticPushValid | plaid/src/routes/tree.rs:426-433 | pushing a new static child and re-sorting keeps the list valid |
| InsertionFacts.ParamChildrenInsertedValid | plaid/src/routes/tree.rs:491-544 | inserting under a parameter segment keeps the parameter child list valid and sorted |
| InsertionFacts.ParamPushValid | plaid/src/routes/tree.rs:524-537 | pushing a new parameter child and re-sorting by type keeps the list valid |
| InsertionFacts.AddedRouteValid | plaid/src/routes/tree.rs:36-56 | `add_route` preserves the shape invariant of the whole tree |
| InsertionFacts.EmptyLiteralRoutes | plaid/src/routes/tree.rs:137-143 | an empty node has no routes at any literal path |
| InsertionFacts.LiteralInsertReached | plaid/src/routes/tree.rs:145-189 | after inserting a literal path, lookup of that path reaches the node, where the methods are registered over the old routes |
| InsertionFacts.LiteralRouteRegistered | plaid/src/routes/tree.rs:36-71 | `add_route` of a literal pattern succeeds, and `route_to` of the trimmed pattern then yields every given method mapped to the handler |
| InsertionFacts.LiteralRoutesFrame | plaid/src/routes/tree.rs:145-169 | inserting one literal path changes the routes at that path only |
| InsertionFacts.LiteralInsertionsCommute | plaid/src/routes/tree.rs:410-440 | two insertions of different literal paths give the same routes at every literal path in either order |
| InsertionFacts.RootAfterAddRoute | plaid/src/routes/tree.rs:42-56 | a non-empty pattern bumps the root priority by one; an empty one only sets the root's routes |
| InsertionFacts.ParamConflict | plaid/src/routes/tree.rs:501-508 | a parameter segment whose type is already taken under another name is the overlapping-names panic |
| InsertionFacts.ParamReused | plaid/src/routes/tree.rs:494-512 | a segment whose type is taken, under no name or the same name, reuses that child in place, names it, and inserts below it |
| InsertionFacts.ParamCreated | plaid/src/routes/tree.rs:513-538 | a segment of a new type adds one child named by the segment. The list stays sorted and gains exactly that child, at the end of its rank class |
| InsertionFacts.SecondNameConflicts | plaid/src/routes/tree.rs:501-508 | registering `:a` and then `:b` of the same type at the same place is the overlapping-names panic naming `b` and `a` |
| Routing.RequestPath | plaid/src/routes.rs:90-94 | the routed path never starts with `/`; with redirection it does not end with one either, and without it only leading slashes are stripped |
| Routing.Router.constructor | plaid/src/routes.rs:22-45 | an empty tree, no trailing-slash redirection, `OPTIONS` handling on |
| Routing.Router.RedirectTrailingSlash | plaid/src/routes.rs:52-55 | sets the redirection flag only |
| Routing.Router.HandleOptions | plaid/src/routes.rs:57-60 | sets the `OPTIONS` flag only |
| Routing.Router.Add | plaid/src/routes.rs:70-78 | the tree's root becomes `AddedRoute` of the pattern |
| Routing.Router.AddWrapped | plaid/src/routes.rs:80-87 | as `Add`, with an already wrapped handler |
| Routing.Router.Route | plaid/src/routes.rs:89-111 | an unknown path is `PathNotFound`. An `OPTIONS` request while handling is on lists the path's methods plus `OPTIONS`. A registered method is `Found` with its handler and parameters, and anything else is `MethodNotFound` |
| Routing.LeadingSlashIgnored | plaid/src/routes.rs:90-94 | an extra leading `/` never changes the result |
| Routing.TrailingSlashIgnored | plaid/src/routes.rs:90-91 | with redirection on, an extra trailing `/` never changes the result |
| Routing.SamePathSameRoute | plaid/src/routes.rs:89-111 | the result depends on the path only through its trimmed form |
| Routing.OptionsListsMethods | plaid/src/routes.rs:319-334 | an `OPTIONS` request on a known path lists every registered method plus `OPTIONS`, one more entry than there are methods |
| Routing.RegisteredLiteralFound | plaid/src/routes.rs:298-317 | after adding a literal pattern, routing that pattern with one of its methods finds the handler, with no parameters, whenever the pattern has no trailing `/` or the router strips trailing slashes |
| Scenarios.RouterWorks | plaid/src/routes.rs:298-317 | the repository's six example routes, added in its order, each route to their own handler; `/abc/123` yields the `i32` parameter `id`, and `/abc/striiiiing` yields the string `somestring` |
| Scenarios.RoutesOfTree6 | plaid/src/routes.rs:311-316 | the tree those six additions build routes each example request as the example expects |
| Scenarios.RouterHandlesOptions | plaid/src/routes.rs:320-334 | after GET and then PUT on `/abc`, an OPTIONS request on `/abc` lists exactly GET, PUT and OPTIONS, three methods |
| Scenarios.OptionsOfGetPut | plaid/src/routes.rs:326-330 | on the tree those two additions build, the OPTIONS listing of `/abc` is GET, PUT and OPTIONS |
| Scenarios.TrailingSlashPatternMissed | plaid/src/routes.rs:89-94 | a route added as `/abc/` on a router that does not strip trailing slashes is not found under `/abc/`, but is found under `/abc` |
| Cors.BoundedAdd | plaid-cors-middleware/src/lib.rs:380-391 | adding to `None` makes exactly the one-item list; adding a new item appends it at the end; adding a listed item changes nothing; no duplicates appear |
| Cors.BoundedAddAll | plaid-cors-middleware/src/lib.rs:380-391 | `Bounded::add` of several items in turn lists exactly the items listed before and the added ones |
| Cors.BoundedAddAllStep | plaid-cors-middleware/src/lib.rs:380-391 | adding one more item is one more `Bounded::add` after the others |
| Cors.AddedInOrder | plaid-cors-middleware/src/lib.rs:380-391 | distinct items added in turn to no list make exactly the list of those items, in the order they were added |
| Cors.BoundedAddIdempotent | plaid-cors-middleware/src/lib.rs:380-391 | adding the same item twice is adding it once |
| Cors.IncludesName | plaid-cors-middleware/src/lib.rs:400-409 | `includes` holds exactly when some listed name equals the text |
| Cors.NoneAllowed | plaid-cors-middleware/src/lib.rs:338-340 | `Allowable::none` permits nothing |
| Cors.AllowableAdd | plaid-cors-middleware/src/lib.rs:346-351 | `Any` absorbs additions; otherwise the list is the one `Bounded::add` makes, so exactly the new item becomes permitted |
| Cors.AllowableAddAll | plaid-cors-middleware/src/lib.rs:346-351 | `Allowable::add` of several items in turn permits exactly what was permitted and the added items |
| Cors.AddAllStep | plaid-cors-middleware/src/lib.rs:346-351 | adding one more item is one more `Allowable::add` after the others |
| Cors.DefaultConfiguration | plaid-cors-middleware/src/lib.rs:34-45 | the default allows no credentials, methods, origins or headers, and exposes nothing |
| Cors.DefaultWellFormed | plaid-cors-middleware/src/lib.rs:34-45 | the default is a well-formed configuration |
| Cors.AllowCredentials | plaid-cors-middleware/src/lib.rs:50-53 | sets the flag and changes nothing else |
| Cors.AllowMethod | plaid-cors-middleware/src/lib.rs:55-66 | fails exactly on a non-method. Otherwise the result is the configuration whose methods are `Allowable::add` of the parsed method, so exactly one more method is permitted and nothing else changes |
| Cors.AllowMethods | plaid-cors-middleware/src/lib.rs:67-76 | fails on the first non-method, reporting that text. Otherwise the result is the configuration whose methods are the parsed methods added in turn, in the given order; it permits exactly those methods in addition and keeps the configuration well formed |
| Cors.MethodsNamed | plaid-cors-middleware/src/lib.rs:67-76 | the methods the texts name, one per text, in order |
| Cors.AllowAnyMethod | plaid-cors-middleware/src/lib.rs:77-80 | every method becomes permitted |
| Cors.AnyMethodAbsorbs | plaid-cors-middleware/src/lib.rs:77-80 | after `allow_any_method`, `allow_method` changes nothing |
| Cors.AllowHeader | plaid-cors-middleware/src/lib.rs:82-92 | fails exactly on a non-token. Otherwise the result is the configuration whose allowed headers are `Bounded::add` of the lower-cased name |
| Cors.AllowHeaders | plaid-cors-middleware/src/lib.rs:93-102 | fails on the first non-token, reporting that text. Otherwise the allowed headers are the lower-cased names added in turn, in the given order, and nothing else changes |
| Cors.LowerAllAt | plaid-cors-middleware/src/lib.rs:93-102 | the names `allow_headers` and `expose_headers` add are the texts lower-cased, one per text, in order |
| Cors.AllowOrigin | plaid-cors-middleware/src/lib.rs:104-114 | fails exactly on an invalid header value. Otherwise the result is the configuration whose origins are `Allowable::add` of that origin |
| Cors.AllowOrigins | plaid-cors-middleware/src/lib.rs:115-124 | fails on the first invalid value, reporting it. Otherwise the origins are the given ones added in turn, in order; exactly those are permitted in addition and nothing else changes |
| Cors.AllowAnyOrigin | plaid-cors-middleware/src/lib.rs:125-128 | every origin becomes permitted |
| Cors.ExposeHeader | plaid-cors-middleware/src/lib.rs:130-140 | fails exactly on a non-token. Otherwise the result is the configuration whose exposed headers are `Bounded::add` of the lower-cased name |
| Cors.ExposeHeaders | plaid-cors-middleware/src/lib.rs:141-150 | fails on the first non-token, reporting that text. Otherwise the exposed headers are the lower-cased names added in turn, in the given order, and nothing else changes |
| Cors.IsMethodAllowed | plaid-cors-middleware/src/lib.rs:213-225 | `Any` allows every value; a list allows exactly the values that parse as a listed method; `None` allows nothing |
| Cors.IsOriginAllowed | plaid-cors-middleware/src/lib.rs:235-243 | the origin, read as text (empty when not visible ASCII), is permitted |
| Cors.IsHeaderAllowed | plaid-cors-middleware/src/lib.rs:227-233 | the requested text equals, ignoring case, a listed header name |
| Cors.RequestedHeaders | plaid-cors-middleware/src/lib.rs:198 | the pieces of the header value read as text: at least one, none containing a comma, and joined back with commas they give the text |
| Cors.Classify | plaid-cors-middleware/src/lib.rs:172-211 | no `Origin` means not CORS. A disallowed origin is rejected, and a non-`OPTIONS` request is regular CORS. A missing or disallowed requested method is rejected, as is any disallowed requested header. Otherwise it is a valid preflight echoing the origin |
| Cors.CheckRequest | plaid-cors-middleware/src/lib.rs:172-211 | the early-return checks compute `Classify` |
| Cors.DefaultRejectsCors | plaid-cors-middleware/src/lib.rs:34-45 | the default configuration rejects every request that carries an `Origin` and passes all others |
| Cors.OpaqueOriginIsEmpty | plaid-cors-middleware/src/lib.rs:240 | an origin that is not visible ASCII is judged as the empty origin |
| Cors.PreflightWithoutHeaders | plaid-cors-middleware/src/lib.rs:196-206 | a preflight with allowed origin and method and no requested headers is valid |
| Cors.UntrimmedPieceRejected | plaid-cors-middleware/src/lib.rs:197-202 | a requested-headers piece that is empty or keeps a space, as in `a, b`, is never allowed, so the preflight is rejected |
| Cors.NotAHeaderName | plaid-cors-middleware/src/lib.rs:227-233 | empty text, or text with a space, matches no configured header name |
| Cors.RejectionResponse | plaid-cors-middleware/src/lib.rs:427-435 | a method rejection is 405 and the others are 403, each with its message as the body |
| Cors.RejectionResponsesDiffer | plaid-cors-middleware/src/lib.rs:417-435 | different rejections give different responses |
| Cors.MethodNames | plaid-cors-middleware/src/lib.rs:294-297 | each method replaced by its text, in order |
| Cors.JoinHeaderNames | plaid-cors-middleware/src/lib.rs:319-327 | the names joined with `, `, exactly when that is a valid header value |
| Cors.AllowMethodsValue | plaid-cors-middleware/src/lib.rs:284-306 | `Any` advertises the fixed list of all methods; an empty or absent list advertises nothing; otherwise the joined method names |
| Cors.NamesValue | plaid-cors-middleware/src/lib.rs:308-313 | an absent list advertises nothing; otherwise the joined names |
| Cors.PreflightResponse | plaid-cors-middleware/src/lib.rs:248-317 | always echoes the origin. It announces credentials exactly when allowed, and adds the methods, allowed headers and exposed headers exactly when each has a value. No other header is added |
| Cors.PreflightAdvertises | plaid-cors-middleware/src/lib.rs:248-317 | for a configuration built by the builders, the methods header is present exactly when methods are allowed at all, and listed headers are always advertised |
| Cors.JoinValid | plaid-cors-middleware/src/lib.rs:319-327 | joining valid header values with `, ` gives a valid header value |
| Cors.MethodsAdvertisedInOrder | plaid-cors-middleware/src/lib.rs:284-306 | distinct methods allowed in turn from none are advertised as their names joined with `, `, in the order they were allowed |
| Cors.NamesAdvertisedInOrder | plaid-cors-middleware/src/lib.rs:308-327 | distinct header names added in turn to no list are advertised joined with `, `, in the order they were added |
| Cors.NamesJoinValid | plaid-cors-middleware/src/lib.rs:319-327 | joined header names are always a valid header value, so `join_header_names` never fails on them |

## Left out

**Not modelled.**

- `Children::Many` and `rebalance` (plaid/src/routes/tree.rs:337-377) are not modelled. Nothing switches a list to the hash map, because the rebalancing call is commented out, so only `Few` lists ever exist.
- The `async` `call` of `Router` and of `Cors` is not modelled. The handler invocation, the error handler, the forwarding of regular CORS requests and the response headers they add are not part of this model.
- The server, request contexts, handlers, responses, the request-id middleware and the route macros are not part of this model.
- `Router::on_error` and the error handler are left out, because handlers are modelled as opaque ids (`HandlerId`).
- Cors.PreflightResponse: only the header map of the preflight response is modelled. Its status (200) and its empty body, set at plaid-cors-middleware/src/lib.rs:249, are not.

**Modelled differently.**

- A panic is an `Err`, in two places: the overlapping-names panic in `ParameterChildren::insert`, and the builders' panics on input they cannot convert.
- The tree's state after a panic is not modelled: `Insertion.RouteTree.AddRoute` promises nothing about `root` when it returns a conflict.
- The routes `HashMap` is a Dafny `map`. The order of its keys, which the `OPTIONS` list follows, is modelled as a multiset.
- The `HeaderMap` of a request is a map with one value per header name.
- Text and bytes are both `seq<char>`. `as_bytes`, UTF-8 validity and `HeaderValue`'s byte-level rules are modelled on characters.
- `Method` is the nine standard methods plus extension tokens, and parsing follows the token rule. This is hyper's `Method::from_bytes`, which is not part of this model.
- `Lower` folds ASCII letters only, as `HeaderName` does.

**Weaker contracts.**

- Insertion.InsertStatic: `priority` is an unbounded `nat`, so the `usize` overflow of `priority += 1` after 2^64 insertions is not modelled.
- Children.SortByKey: `sort_by` is modelled as a stable insertion sort. Only its result is specified: sorted, a permutation, stable. The comparison sequence of the library's merge sort is not.
- Cors.AllowMethodsValue: the fixed text of `LIST_ALL_METHODS` is used as given. It is not proved to be the join of the nine method names.

**Known behaviours kept as written.**

- Static children are sorted by priority only when a new child is pushed (plaid/src/routes/tree.rs:430-433). Priority bumps of existing children do not re-sort the list, and the model keeps this.
- The doc comment on `CorsConfiguration::default` says it equals "any", but the code allows nothing. The model follows the code (`Cors.DefaultConfiguration`, `Cors.DefaultRejectsCors`).
- `add_route` trims `/` from both ends of a pattern (plaid/src/routes/tree.rs:42), but `route` without trailing-slash stripping trims only leading slashes (plaid/src/routes.rs:89-94). So on a default router a route added as `/abc/` is found under `/abc` and not under `/abc/`. The model keeps this (`Scenarios.TrailingSlashPatternMissed`); `Routing.RegisteredLiteralFound` covers exactly the patterns that are found again.
- In `Scenarios`, the handlers of the example routes are named by the status codes the example expects, 200 to 205.
