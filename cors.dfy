/**
 * The CORS middleware: its configuration and the builder calls that make
 * it, the classification of a request as not CORS, a regular CORS request,
 * a valid preflight or a rejection, the response of each rejection, and
 * the headers of the preflight response.
 *
 * The builders take the configuration by value and give it back, so they
 * are functions from configuration to configuration; a builder's panic on
 * input it cannot parse is its `Err` outcome. The list builders loop over
 * their input the way the source does and are methods.
 */
module Cors {
  import opened Wrappers
  import opened Text
  import opened Http

  /** No element occurs twice. */
  ghost predicate NoDuplicates<T>(s: seq<T>) {
    forall i, j :: 0 <= i < j < |s| ==> s[i] != s[j]
  }

  /** `Bounded`: an explicit list of items, or no list at all. */
  datatype Bounded<T> = Listed(items: seq<T>) | NotListed

  /** `x` is on the list. */
  predicate Lists<T(==)>(b: Bounded<T>, x: T) {
    b.Listed? && x in b.items
  }

  /**
   * `Bounded::add`: an item already listed changes nothing, a new one is
   * appended, and no list becomes the one-item list.
   */
  function BoundedAdd<T(==, !new)>(b: Bounded<T>, x: T): (r: Bounded<T>)
    ensures r.Listed? && |r.items| > 0
    ensures b.NotListed? ==> r == Listed([x])
    ensures forall y :: Lists(r, y) <==> Lists(b, y) || y == x
    ensures b.Listed? ==> |b.items| <= |r.items| <= |b.items| + 1 && r.items[..|b.items|] == b.items
    ensures Lists(b, x) ==> r == b
    ensures b.Listed? && NoDuplicates(b.items) ==> NoDuplicates(r.items)
  {
    match b
    case Listed(v) => if x in v then b else Listed(v + [x])
    case NotListed => Listed([x])
  }

  /** Adding the same item twice is adding it once. */
  lemma BoundedAddIdempotent<T(!new)>(b: Bounded<T>, x: T)
    ensures BoundedAdd(BoundedAdd(b, x), x) == BoundedAdd(b, x)
  {
  }

  /** Some name on the list equals `s` up to ASCII case. */
  function AnyNameMatches(names: seq<HeaderName>, s: string): (r: bool)
    ensures r <==> exists i :: 0 <= i < |names| && NameMatches(names[i], s)
  {
    if |names| == 0 then false
    else if NameMatches(names[0], s) then true
    else
      var r := AnyNameMatches(names[1..], s);
      assert r ==> exists i :: 0 <= i < |names| && NameMatches(names[i], s) by {
        if r {
          var i :| 0 <= i < |names[1..]| && NameMatches(names[1..][i], s);
          assert NameMatches(names[i + 1], s);
        }
      }
      r
  }

  /**
   * `Bounded::includes`, for header names against text: some listed name
   * equals the text up to ASCII case; never true without a list.
   */
  function IncludesName(b: Bounded<HeaderName>, s: string): (r: bool)
    ensures r <==> b.Listed? && exists i :: 0 <= i < |b.items| && NameMatches(b.items[i], s)
  {
    b.Listed? && AnyNameMatches(b.items, s)
  }

  /** `Allowable`: everything, or what a `Bounded` lists. */
  datatype Allowable<T> = Any | Bounded(b: Bounded<T>)

  /** `Allowable::none`. */
  function NoneAllowed<T(==, !new)>(): (r: Allowable<T>)
    ensures forall x :: !Permits(r, x)
  {
    Bounded(NotListed)
  }

  predicate Permits<T(==)>(a: Allowable<T>, x: T) {
    a.Any? || Lists(a.b, x)
  }

  /** `Allowable::add`: nothing changes under `Any`, otherwise the list gains `x`. */
  function AllowableAdd<T(==, !new)>(a: Allowable<T>, x: T): (r: Allowable<T>)
    ensures r.Any? <==> a.Any?
    ensures a.Any? ==> r == a
    ensures a.Bounded? ==> r == Bounded(BoundedAdd(a.b, x))
    ensures forall y :: Permits(r, y) <==> Permits(a, y) || y == x
    ensures r.Bounded? ==> r.b.Listed?
  {
    match a
    case Any => Any
    case Bounded(b) => Bounded(BoundedAdd(b, x))
  }

  /** `Bounded::add` of each item in turn, the first one first. */
  function BoundedAddAll<T(==, !new)>(b: Bounded<T>, xs: seq<T>): (r: Bounded<T>)
    ensures xs != [] ==> r.Listed?
    ensures forall y :: Lists(r, y) <==> Lists(b, y) || y in xs
    decreases |xs|
  {
    if xs == [] then b
    else
      assert xs == xs[..|xs| - 1] + [xs[|xs| - 1]];
      BoundedAdd(BoundedAddAll(b, xs[..|xs| - 1]), xs[|xs| - 1])
  }

  /** `Allowable::add` of each item in turn: `Any` absorbs them all. */
  function AllowableAddAll<T(==, !new)>(a: Allowable<T>, xs: seq<T>): (r: Allowable<T>)
    ensures forall y :: Permits(r, y) <==> Permits(a, y) || y in xs
  {
    match a
    case Any => Any
    case Bounded(b) => Bounded(BoundedAddAll(b, xs))
  }

  /** Adding one more item extends the fold by one step. */
  lemma AddAllStep<T(!new)>(a: Allowable<T>, xs: seq<T>, x: T)
    ensures AllowableAddAll(a, xs + [x]) == AllowableAdd(AllowableAddAll(a, xs), x)
    ensures a.Bounded? ==> BoundedAddAll(a.b, xs + [x]) == BoundedAdd(BoundedAddAll(a.b, xs), x)
  {
    assert (xs + [x])[..|xs|] == xs;
  }

  /** Adding one more item to a bounded fold extends it by one step. */
  lemma BoundedAddAllStep<T(!new)>(b: Bounded<T>, xs: seq<T>, x: T)
    ensures BoundedAddAll(b, xs + [x]) == BoundedAdd(BoundedAddAll(b, xs), x)
  {
    assert (xs + [x])[..|xs|] == xs;
  }

  /**
   * Distinct items added to no list make exactly the list of those items,
   * in the order they were added.
   */
  lemma {:induction false} AddedInOrder<T(!new)>(xs: seq<T>)
    requires xs != [] && NoDuplicates(xs)
    ensures BoundedAddAll(NotListed, xs) == Listed(xs)
  {
    var init := xs[..|xs| - 1];
    var x := xs[|xs| - 1];
    if init == [] {
      assert xs == [x];
    } else {
      AddedInOrder(init);
      forall k | 0 <= k < |init|
        ensures init[k] != x
      {
        assert init[k] == xs[k];
      }
      assert init + [x] == xs;
    }
  }

  datatype CorsConfiguration = CorsConfiguration(
    allowCredentials: bool,
    allowMethods: Allowable<Method>,
    allowOrigins: Allowable<HeaderValue>,
    allowHeaders: Bounded<HeaderName>,
    exposeHeaders: Bounded<HeaderName>)

  /**
   * `CorsConfiguration::default` (and `Cors::builder`): no credentials and
   * nothing allowed or exposed.
   */
  function DefaultConfiguration(): (c: CorsConfiguration)
    ensures !c.allowCredentials
    ensures forall m :: !Permits(c.allowMethods, m)
    ensures forall o :: !Permits(c.allowOrigins, o)
    ensures forall s :: !IncludesName(c.allowHeaders, s) && !IncludesName(c.exposeHeaders, s)
  {
    CorsConfiguration(false, NoneAllowed(), NoneAllowed(), NotListed, NotListed)
  }

  /** A listed set of items is never empty and never repeats an item. */
  ghost predicate ListOk<T>(b: Bounded<T>) {
    b.Listed? ==> |b.items| > 0 && NoDuplicates(b.items)
  }

  /** A header name as the library keeps it: a token in lower case. */
  ghost predicate IsHeaderName(n: string) {
    IsToken(n) && Lower(n) == n
  }

  /**
   * What every configuration the builders produce satisfies: lists are
   * non-empty and repeat nothing, methods are well formed, origins are
   * valid header values, and header names are lower-case tokens.
   */
  ghost predicate WellFormedConfig(c: CorsConfiguration) {
    && (c.allowMethods.Bounded? ==> ListOk(c.allowMethods.b))
    && (forall m :: Permits(c.allowMethods, m) && c.allowMethods.Bounded? ==> WellFormed(m))
    && (c.allowOrigins.Bounded? ==> ListOk(c.allowOrigins.b))
    && (forall o :: Permits(c.allowOrigins, o) && c.allowOrigins.Bounded? ==> IsValidHeaderValue(o))
    && ListOk(c.allowHeaders) && (forall n :: Lists(c.allowHeaders, n) ==> IsHeaderName(n))
    && ListOk(c.exposeHeaders) && (forall n :: Lists(c.exposeHeaders, n) ==> IsHeaderName(n))
  }

  lemma DefaultWellFormed()
    ensures WellFormedConfig(DefaultConfiguration())
  {
  }

  /** The input a single-item builder could not parse (its panic). */
  datatype BuildError = InvalidMethod(text: string) | InvalidHeaderName(text: string) | InvalidOrigin(text: string)

  /** `allow_credentials`. */
  function AllowCredentials(c: CorsConfiguration, allow: bool): (r: CorsConfiguration)
    ensures r.allowCredentials == allow
    ensures r.(allowCredentials := c.allowCredentials) == c
  {
    c.(allowCredentials := allow)
  }

  /**
   * `allow_method`: the text is parsed as a method (anything but a token
   * is refused) and added to the allowed methods.
   */
  function AllowMethod(c: CorsConfiguration, s: string): (r: Result<CorsConfiguration, BuildError>)
    ensures r.Err? <==> !IsToken(s)
    ensures r.Err? ==> r.error == InvalidMethod(s)
    ensures r.Ok? ==> r.value == c.(allowMethods := AllowableAdd(c.allowMethods, MethodFromBytes(s).value))
    ensures r.Ok? ==> forall m :: Permits(r.value.allowMethods, m) <==> Permits(c.allowMethods, m) || Some(m) == MethodFromBytes(s)
    ensures r.Ok? && WellFormedConfig(c) ==> WellFormedConfig(r.value)
  {
    match MethodFromBytes(s)
    case Some(m) => Ok(c.(allowMethods := AllowableAdd(c.allowMethods, m)))
    case None => Err(InvalidMethod(s))
  }

  /** `allow_any_method`: every method, whatever was listed before. */
  function AllowAnyMethod(c: CorsConfiguration): (r: CorsConfiguration)
    ensures forall m :: Permits(r.allowMethods, m)
    ensures r.(allowMethods := c.allowMethods) == c
    ensures WellFormedConfig(c) ==> WellFormedConfig(r)
  {
    c.(allowMethods := Any)
  }

  /** Once any method is allowed, adding one more changes nothing. */
  lemma AnyMethodAbsorbs(c: CorsConfiguration, s: string)
    requires IsToken(s)
    ensures AllowMethod(AllowAnyMethod(c), s) == Ok(AllowAnyMethod(c))
  {
  }

  /**
   * `allow_header`: the text is parsed as a header name (a token, kept in
   * lower case) and added to the allowed headers.
   */
  function AllowHeader(c: CorsConfiguration, s: string): (r: Result<CorsConfiguration, BuildError>)
    ensures r.Err? <==> !IsToken(s)
    ensures r.Err? ==> r.error == InvalidHeaderName(s)
    ensures r.Ok? ==> r.value == c.(allowHeaders := BoundedAdd(c.allowHeaders, Lower(s)))
    ensures r.Ok? ==> forall n :: Lists(r.value.allowHeaders, n) <==> Lists(c.allowHeaders, n) || n == Lower(s)
    ensures r.Ok? && WellFormedConfig(c) ==> WellFormedConfig(r.value)
  {
    match ParseHeaderName(s)
    case Some(n) => Ok(c.(allowHeaders := BoundedAdd(c.allowHeaders, n)))
    case None => Err(InvalidHeaderName(s))
  }

  /**
   * `allow_origin`: the text must be a valid header value; it is added to
   * the allowed origins.
   */
  function AllowOrigin(c: CorsConfiguration, s: string): (r: Result<CorsConfiguration, BuildError>)
    ensures r.Err? <==> !IsValidHeaderValue(s)
    ensures r.Err? ==> r.error == InvalidOrigin(s)
    ensures r.Ok? ==> r.value == c.(allowOrigins := AllowableAdd(c.allowOrigins, s))
    ensures r.Ok? ==> forall o :: Permits(r.value.allowOrigins, o) <==> Permits(c.allowOrigins, o) || o == s
    ensures r.Ok? && WellFormedConfig(c) ==> WellFormedConfig(r.value)
  {
    if IsValidHeaderValue(s) then Ok(c.(allowOrigins := AllowableAdd(c.allowOrigins, s)))
    else Err(InvalidOrigin(s))
  }

  /** `allow_any_origin`: every origin, whatever was listed before. */
  function AllowAnyOrigin(c: CorsConfiguration): (r: CorsConfiguration)
    ensures forall o :: Permits(r.allowOrigins, o)
    ensures r.(allowOrigins := c.allowOrigins) == c
    ensures WellFormedConfig(c) ==> WellFormedConfig(r)
  {
    c.(allowOrigins := Any)
  }

  /** `expose_header`: as `allow_header`, for the exposed headers. */
  function ExposeHeader(c: CorsConfiguration, s: string): (r: Result<CorsConfiguration, BuildError>)
    ensures r.Err? <==> !IsToken(s)
    ensures r.Err? ==> r.error == InvalidHeaderName(s)
    ensures r.Ok? ==> r.value == c.(exposeHeaders := BoundedAdd(c.exposeHeaders, Lower(s)))
    ensures r.Ok? ==> forall n :: Lists(r.value.exposeHeaders, n) <==> Lists(c.exposeHeaders, n) || n == Lower(s)
    ensures r.Ok? && WellFormedConfig(c) ==> WellFormedConfig(r.value)
  {
    match ParseHeaderName(s)
    case Some(n) => Ok(c.(exposeHeaders := BoundedAdd(c.exposeHeaders, n)))
    case None => Err(InvalidHeaderName(s))
  }

  /**
   * `allow_methods`: `allow_method` on each text in turn, stopping at the
   * first that is not a method.
   */
  method AllowMethods(c: CorsConfiguration, ss: seq<string>) returns (r: Result<CorsConfiguration, BuildError>)
    ensures r.Ok? <==> forall i :: 0 <= i < |ss| ==> IsToken(ss[i])
    ensures r.Err? ==> exists i :: 0 <= i < |ss| && !IsToken(ss[i]) && (forall j :: 0 <= j < i ==> IsToken(ss[j])) && r.error == InvalidMethod(ss[i])
    ensures r.Ok? ==> r.value == c.(allowMethods := AllowableAddAll(c.allowMethods, MethodsNamed(ss)))
    ensures r.Ok? ==> forall m :: Permits(r.value.allowMethods, m) <==>
      Permits(c.allowMethods, m) || exists i :: 0 <= i < |ss| && MethodFromBytes(ss[i]) == Some(m)
    ensures r.Ok? && WellFormedConfig(c) ==> WellFormedConfig(r.value)
  {
    var cur := c;
    for i := 0 to |ss|
      invariant forall j :: 0 <= j < i ==> IsToken(ss[j])
      invariant cur == c.(allowMethods := AllowableAddAll(c.allowMethods, MethodsNamed(ss[..i])))
      invariant forall m :: Permits(cur.allowMethods, m) <==> Permits(c.allowMethods, m) || NamedAmong(ss, i, m)
      invariant WellFormedConfig(c) ==> WellFormedConfig(cur)
    {
      var next := AllowMethod(cur, ss[i]);
      if next.Err? {
        return Err(next.error);
      }
      forall m | true
        ensures Permits(next.value.allowMethods, m) <==> Permits(c.allowMethods, m) || NamedAmong(ss, i + 1, m)
      {
        NamedAmongStep(ss, i, m);
      }
      MethodsNamedStep(ss, i);
      AddAllStep(c.allowMethods, MethodsNamed(ss[..i]), MethodFromBytes(ss[i]).value);
      cur := next.value;
    }
    assert ss[..|ss|] == ss;
    return Ok(cur);
  }

  /** The methods the texts name, in order. */
  function MethodsNamed(ss: seq<string>): (r: seq<Method>)
    requires forall i :: 0 <= i < |ss| ==> IsToken(ss[i])
    ensures |r| == |ss| && forall i :: 0 <= i < |ss| ==> MethodFromBytes(ss[i]) == Some(r[i])
  {
    if ss == [] then [] else MethodsNamed(ss[..|ss| - 1]) + [MethodFromBytes(ss[|ss| - 1]).value]
  }

  lemma MethodsNamedStep(ss: seq<string>, i: nat)
    requires i < |ss| && forall j :: 0 <= j <= i ==> IsToken(ss[j])
    ensures MethodsNamed(ss[..i + 1]) == MethodsNamed(ss[..i]) + [MethodFromBytes(ss[i]).value]
  {
    assert ss[..i + 1][..i] == ss[..i];
  }

  /** The header names the texts give, in order: each text in lower case. */
  function LowerAll(ss: seq<string>): (r: seq<string>)
    ensures |r| == |ss|
  {
    if ss == [] then [] else LowerAll(ss[..|ss| - 1]) + [Lower(ss[|ss| - 1])]
  }

  lemma LowerAllStep(ss: seq<string>, i: nat)
    requires i < |ss|
    ensures LowerAll(ss[..i + 1]) == LowerAll(ss[..i]) + [Lower(ss[i])]
  {
    assert ss[..i + 1][..i] == ss[..i];
  }

  lemma TokensExtend(ss: seq<string>, i: nat)
    requires i < |ss| && IsToken(ss[i]) && forall j :: 0 <= j < i ==> IsToken(ss[j])
    ensures forall j :: 0 <= j < i + 1 ==> IsToken(ss[j])
  {
  }

  lemma {:induction false} LowerAllAt(ss: seq<string>)
    ensures forall i :: 0 <= i < |ss| ==> LowerAll(ss)[i] == Lower(ss[i])
  {
    if ss != [] {
      LowerAllAt(ss[..|ss| - 1]);
    }
  }

  lemma LowerAllNames(ss: seq<string>)
    ensures forall n :: n in LowerAll(ss) <==> exists i :: 0 <= i < |ss| && Lower(ss[i]) == n
  {
    LowerAllAt(ss);
    forall n | n in LowerAll(ss)
      ensures exists i :: 0 <= i < |ss| && Lower(ss[i]) == n
    {
      var i :| 0 <= i < |ss| && LowerAll(ss)[i] == n;
    }
  }

  /** One of the first `n` strings parses to the method `m`. */
  ghost predicate NamedAmong(ss: seq<string>, n: nat, m: Method)
    requires n <= |ss|
  {
    exists j :: 0 <= j < n && MethodFromBytes(ss[j]) == Some(m)
  }

  lemma NamedAmongStep(ss: seq<string>, i: nat, m: Method)
    requires i < |ss|
    ensures NamedAmong(ss, i + 1, m) <==> NamedAmong(ss, i, m) || MethodFromBytes(ss[i]) == Some(m)
  {
  }

  /** `allow_headers`: `allow_header` on each text in turn. */
  method AllowHeaders(c: CorsConfiguration, ss: seq<string>) returns (r: Result<CorsConfiguration, BuildError>)
    ensures r.Ok? <==> forall i :: 0 <= i < |ss| ==> IsToken(ss[i])
    ensures r.Err? ==> exists i :: 0 <= i < |ss| && !IsToken(ss[i]) && (forall j :: 0 <= j < i ==> IsToken(ss[j])) && r.error == InvalidHeaderName(ss[i])
    ensures r.Ok? ==> r.value == c.(allowHeaders := BoundedAddAll(c.allowHeaders, LowerAll(ss)))
    ensures r.Ok? ==> forall n :: Lists(r.value.allowHeaders, n) <==>
      Lists(c.allowHeaders, n) || exists i :: 0 <= i < |ss| && Lower(ss[i]) == n
    ensures r.Ok? && WellFormedConfig(c) ==> WellFormedConfig(r.value)
  {
    var cur := c;
    for i := 0 to |ss|
      invariant forall j :: 0 <= j < i ==> IsToken(ss[j])
      invariant cur == c.(allowHeaders := BoundedAddAll(c.allowHeaders, LowerAll(ss[..i])))
      invariant WellFormedConfig(c) ==> WellFormedConfig(cur)
    {
      var next := AllowHeader(cur, ss[i]);
      if next.Err? {
        return Err(next.error);
      }
      TokensExtend(ss, i);
      LowerAllStep(ss, i);
      BoundedAddAllStep(c.allowHeaders, LowerAll(ss[..i]), Lower(ss[i]));
      cur := next.value;
    }
    assert ss[..|ss|] == ss;
    LowerAllNames(ss);
    return Ok(cur);
  }

  /** `allow_origins`: `allow_origin` on each text in turn. */
  method AllowOrigins(c: CorsConfiguration, ss: seq<string>) returns (r: Result<CorsConfiguration, BuildError>)
    ensures r.Ok? <==> forall i :: 0 <= i < |ss| ==> IsValidHeaderValue(ss[i])
    ensures r.Err? ==> exists i :: 0 <= i < |ss| && !IsValidHeaderValue(ss[i]) && (forall j :: 0 <= j < i ==> IsValidHeaderValue(ss[j])) && r.error == InvalidOrigin(ss[i])
    ensures r.Ok? ==> r.value == c.(allowOrigins := AllowableAddAll(c.allowOrigins, ss))
    ensures r.Ok? ==> forall o :: Permits(r.value.allowOrigins, o) <==> Permits(c.allowOrigins, o) || o in ss
    ensures r.Ok? && WellFormedConfig(c) ==> WellFormedConfig(r.value)
  {
    var cur := c;
    for i := 0 to |ss|
      invariant forall j :: 0 <= j < i ==> IsValidHeaderValue(ss[j])
      invariant cur == c.(allowOrigins := AllowableAddAll(c.allowOrigins, ss[..i]))
      invariant forall o :: Permits(cur.allowOrigins, o) <==> Permits(c.allowOrigins, o) || o in ss[..i]
      invariant WellFormedConfig(c) ==> WellFormedConfig(cur)
    {
      var next := AllowOrigin(cur, ss[i]);
      if next.Err? {
        return Err(next.error);
      }
      assert ss[..i + 1] == ss[..i] + [ss[i]];
      AddAllStep(c.allowOrigins, ss[..i], ss[i]);
      cur := next.value;
    }
    assert ss[..|ss|] == ss;
    return Ok(cur);
  }

  /** `expose_headers`: `expose_header` on each text in turn. */
  method ExposeHeaders(c: CorsConfiguration, ss: seq<string>) returns (r: Result<CorsConfiguration, BuildError>)
    ensures r.Ok? <==> forall i :: 0 <= i < |ss| ==> IsToken(ss[i])
    ensures r.Err? ==> exists i :: 0 <= i < |ss| && !IsToken(ss[i]) && (forall j :: 0 <= j < i ==> IsToken(ss[j])) && r.error == InvalidHeaderName(ss[i])
    ensures r.Ok? ==> r.value == c.(exposeHeaders := BoundedAddAll(c.exposeHeaders, LowerAll(ss)))
    ensures r.Ok? ==> forall n :: Lists(r.value.exposeHeaders, n) <==>
      Lists(c.exposeHeaders, n) || exists i :: 0 <= i < |ss| && Lower(ss[i]) == n
    ensures r.Ok? && WellFormedConfig(c) ==> WellFormedConfig(r.value)
  {
    var cur := c;
    for i := 0 to |ss|
      invariant forall j :: 0 <= j < i ==> IsToken(ss[j])
      invariant cur == c.(exposeHeaders := BoundedAddAll(c.exposeHeaders, LowerAll(ss[..i])))
      invariant WellFormedConfig(c) ==> WellFormedConfig(cur)
    {
      var next := ExposeHeader(cur, ss[i]);
      if next.Err? {
        return Err(next.error);
      }
      TokensExtend(ss, i);
      LowerAllStep(ss, i);
      BoundedAddAllStep(c.exposeHeaders, LowerAll(ss[..i]), Lower(ss[i]));
      cur := next.value;
    }
    assert ss[..|ss|] == ss;
    LowerAllNames(ss);
    return Ok(cur);
  }

  // Checking a request.

  /** What the middleware sees of a request: its method and its headers by name. */
  datatype Request = Request(m: Method, headers: map<HeaderName, HeaderValue>)

  /** `RequestType`. */
  datatype RequestType = CorsPreflight(origin: HeaderValue) | CorsRegular(origin: HeaderValue) | NotCors

  /** `CorsRejection`, named by the message each one displays. */
  datatype CorsRejection = OriginNotAllowed | MethodNotAllowed | HeaderNotAllowed

  /**
   * `is_method_allowed`: any value under `Any`; otherwise the value must
   * parse as a method that is on the list.
   */
  function IsMethodAllowed(c: CorsConfiguration, v: HeaderValue): (r: bool)
    ensures c.allowMethods.Any? ==> r
    ensures c.allowMethods.Bounded? ==>
      (r <==> MethodFromBytes(v).Some? && Permits(c.allowMethods, MethodFromBytes(v).value))
    ensures !IsToken(v) ==> (r <==> c.allowMethods.Any?)
  {
    match c.allowMethods
    case Any => true
    case Bounded(Listed(ms)) =>
      (match MethodFromBytes(v)
       case Some(m) => m in ms
       case None => false)
    case Bounded(NotListed) => false
  }

  /**
   * `is_origin_allowed`: any value under `Any`; otherwise the value's text
   * (empty when it is not visible ASCII) must equal a listed origin.
   */
  function IsOriginAllowed(c: CorsConfiguration, origin: HeaderValue): (r: bool)
    ensures r <==> Permits(c.allowOrigins, ToStr(origin))
  {
    match c.allowOrigins
    case Any => true
    case Bounded(Listed(os)) => ToStr(origin) in os
    case Bounded(NotListed) => false
  }

  /** `is_header_allowed`: a listed header name equal to the text up to ASCII case. */
  function IsHeaderAllowed(c: CorsConfiguration, h: string): (r: bool)
    ensures r <==> Lists(c.allowHeaders, Lower(h)) || exists n :: Lists(c.allowHeaders, n) && Lower(n) == Lower(h)
  {
    var r := IncludesName(c.allowHeaders, h);
    assert r ==> exists n :: Lists(c.allowHeaders, n) && Lower(n) == Lower(h) by {
      if r {
        var i :| 0 <= i < |c.allowHeaders.items| && NameMatches(c.allowHeaders.items[i], h);
        assert Lists(c.allowHeaders, c.allowHeaders.items[i]);
      }
    }
    r
  }

  /** The requested headers: the header's text split on `,`, pieces kept untrimmed. */
  function RequestedHeaders(v: HeaderValue): (r: seq<string>)
    ensures |r| >= 1 && Join(r, ",") == ToStr(v)
    ensures forall i :: 0 <= i < |r| ==> ',' !in r[i]
  {
    Split(ToStr(v), ',')
  }

  /**
   * `check_request`, as a decision: without an `Origin` header the request
   * is not CORS; a disallowed origin is rejected whatever the method; any
   * method but OPTIONS makes a regular CORS request; an OPTIONS request is
   * a preflight when its requested method is present and allowed and each
   * of its requested headers (if any) is allowed, and is rejected on the
   * first of these that fails.
   */
  function Classify(c: CorsConfiguration, req: Request): (r: Result<RequestType, CorsRejection>)
    ensures r == Ok(NotCors) <==> ORIGIN !in req.headers
    ensures r.Ok? && !r.value.NotCors? ==> ORIGIN in req.headers && r.value.origin == req.headers[ORIGIN]
    ensures r == Err(OriginNotAllowed) <==> ORIGIN in req.headers && !IsOriginAllowed(c, req.headers[ORIGIN])
    ensures r.Ok? && r.value.CorsRegular? <==>
      ORIGIN in req.headers && IsOriginAllowed(c, req.headers[ORIGIN]) && req.m != OPTIONS
    ensures r == Err(MethodNotAllowed) <==>
      && ORIGIN in req.headers && IsOriginAllowed(c, req.headers[ORIGIN]) && req.m == OPTIONS
      && (ACCESS_CONTROL_REQUEST_METHOD !in req.headers || !IsMethodAllowed(c, req.headers[ACCESS_CONTROL_REQUEST_METHOD]))
    ensures r.Ok? && r.value.CorsPreflight? ==>
      && req.m == OPTIONS && ACCESS_CONTROL_REQUEST_METHOD in req.headers
      && IsMethodAllowed(c, req.headers[ACCESS_CONTROL_REQUEST_METHOD])
      && (ACCESS_CONTROL_REQUEST_HEADERS in req.headers ==>
            var hs := RequestedHeaders(req.headers[ACCESS_CONTROL_REQUEST_HEADERS]);
            forall i :: 0 <= i < |hs| ==> IsHeaderAllowed(c, hs[i]))
    ensures r == Err(HeaderNotAllowed) ==>
      && req.m == OPTIONS && ACCESS_CONTROL_REQUEST_HEADERS in req.headers
      && var hs := RequestedHeaders(req.headers[ACCESS_CONTROL_REQUEST_HEADERS]);
         exists i :: 0 <= i < |hs| && !IsHeaderAllowed(c, hs[i])
  {
    if ORIGIN !in req.headers then Ok(NotCors)
    else
      var origin := req.headers[ORIGIN];
      if !IsOriginAllowed(c, origin) then Err(OriginNotAllowed)
      else if req.m != OPTIONS then Ok(CorsRegular(origin))
      else if ACCESS_CONTROL_REQUEST_METHOD !in req.headers then Err(MethodNotAllowed)
      else if !IsMethodAllowed(c, req.headers[ACCESS_CONTROL_REQUEST_METHOD]) then Err(MethodNotAllowed)
      else if ACCESS_CONTROL_REQUEST_HEADERS in req.headers
        && exists h :: h in RequestedHeaders(req.headers[ACCESS_CONTROL_REQUEST_HEADERS]) && !IsHeaderAllowed(c, h)
      then Err(HeaderNotAllowed)
      else Ok(CorsPreflight(origin))
  }

  /** `check_request` as the source runs it: guards and a loop over the requested headers. */
  method CheckRequest(c: CorsConfiguration, req: Request) returns (r: Result<RequestType, CorsRejection>)
    ensures r == Classify(c, req)
  {
    if ORIGIN !in req.headers {
      return Ok(NotCors);
    }
    var origin := req.headers[ORIGIN];
    if !IsOriginAllowed(c, origin) {
      return Err(OriginNotAllowed);
    }
    if req.m != OPTIONS {
      return Ok(CorsRegular(origin));
    }
    if ACCESS_CONTROL_REQUEST_METHOD in req.headers {
      if !IsMethodAllowed(c, req.headers[ACCESS_CONTROL_REQUEST_METHOD]) {
        return Err(MethodNotAllowed);
      }
    } else {
      return Err(MethodNotAllowed);
    }
    if ACCESS_CONTROL_REQUEST_HEADERS in req.headers {
      var hs := Split(ToStr(req.headers[ACCESS_CONTROL_REQUEST_HEADERS]), ',');
      for i := 0 to |hs|
        invariant forall j :: 0 <= j < i ==> IsHeaderAllowed(c, hs[j])
      {
        if !IsHeaderAllowed(c, hs[i]) {
          return Err(HeaderNotAllowed);
        }
      }
    }
    return Ok(CorsPreflight(origin));
  }

  /** The default configuration rejects every request that carries an origin. */
  lemma DefaultRejectsCors(req: Request)
    ensures Classify(DefaultConfiguration(), req) ==
      if ORIGIN in req.headers then Err(OriginNotAllowed) else Ok(NotCors)
  {
  }

  /**
   * An origin whose bytes are not all visible ASCII is judged as the empty
   * text, so it passes exactly when the empty origin is allowed.
   */
  lemma OpaqueOriginIsEmpty(c: CorsConfiguration, origin: HeaderValue)
    requires !IsVisibleAscii(origin)
    ensures IsOriginAllowed(c, origin) == Permits(c.allowOrigins, "")
  {
  }

  /**
   * An allowed origin and an allowed requested method make an OPTIONS
   * request a preflight when it asks for no headers.
   */
  lemma PreflightWithoutHeaders(c: CorsConfiguration, req: Request)
    requires ORIGIN in req.headers && IsOriginAllowed(c, req.headers[ORIGIN]) && req.m == OPTIONS
    requires ACCESS_CONTROL_REQUEST_METHOD in req.headers && IsMethodAllowed(c, req.headers[ACCESS_CONTROL_REQUEST_METHOD])
    requires ACCESS_CONTROL_REQUEST_HEADERS !in req.headers
    ensures Classify(c, req) == Ok(CorsPreflight(req.headers[ORIGIN]))
  {
  }

  /**
   * The requested headers are split on `,` and not trimmed: under a
   * well-formed configuration, an empty piece (an empty header value, a
   * value that is not visible ASCII, a doubled or trailing comma) or a
   * piece with a space next to its comma is never allowed, so such a
   * preflight is rejected for its headers.
   */
  lemma UntrimmedPieceRejected(c: CorsConfiguration, req: Request, i: nat)
    requires WellFormedConfig(c)
    requires ORIGIN in req.headers && IsOriginAllowed(c, req.headers[ORIGIN]) && req.m == OPTIONS
    requires ACCESS_CONTROL_REQUEST_METHOD in req.headers && IsMethodAllowed(c, req.headers[ACCESS_CONTROL_REQUEST_METHOD])
    requires ACCESS_CONTROL_REQUEST_HEADERS in req.headers
    requires var hs := RequestedHeaders(req.headers[ACCESS_CONTROL_REQUEST_HEADERS]);
      i < |hs| && (hs[i] == "" || ' ' in hs[i])
    ensures Classify(c, req) == Err(HeaderNotAllowed)
  {
    var hs := RequestedHeaders(req.headers[ACCESS_CONTROL_REQUEST_HEADERS]);
    NotAHeaderName(c, hs[i]);
    assert hs[i] in hs;
  }

  /** Text that is empty or holds a space matches no well-formed header name. */
  lemma NotAHeaderName(c: CorsConfiguration, h: string)
    requires WellFormedConfig(c)
    requires h == "" || ' ' in h
    ensures !IsHeaderAllowed(c, h)
  {
    if IsHeaderAllowed(c, h) {
      var n :| Lists(c.allowHeaders, n) && Lower(n) == Lower(h);
      assert false;
    }
  }

  // Rejection responses.

  const FORBIDDEN: nat := 403
  const METHOD_NOT_ALLOWED: nat := 405

  /** A plain-text response: status and body. */
  datatype Response = Text(status: nat, body: string)

  /** `Display for CorsRejection`. */
  function Message(r: CorsRejection): string {
    match r
    case OriginNotAllowed => "Origin not allowed"
    case MethodNotAllowed => "Method not allowed"
    case HeaderNotAllowed => "Header not allowed"
  }

  /**
   * `From<CorsRejection> for Response`: 405 for a refused method, 403 for a
   * refused origin or header, with the rejection's message as the body.
   */
  function RejectionResponse(r: CorsRejection): (resp: Response)
    ensures resp.status == if r == MethodNotAllowed then METHOD_NOT_ALLOWED else FORBIDDEN
    ensures resp.body == Message(r)
  {
    match r
    case OriginNotAllowed => Text(FORBIDDEN, Message(r))
    case MethodNotAllowed => Text(METHOD_NOT_ALLOWED, Message(r))
    case HeaderNotAllowed => Text(FORBIDDEN, Message(r))
  }

  /** Different rejections give different responses: the body tells them apart. */
  lemma RejectionResponsesDiffer(a: CorsRejection, b: CorsRejection)
    requires a != b
    ensures RejectionResponse(a) != RejectionResponse(b)
  {
    assert Message(a) != Message(b) by {
      assert Message(a)[0] != Message(b)[0] || a == b;
    }
  }

  // The preflight response.

  /** `LIST_ALL_METHODS`: the nine standard methods, comma-separated. */
  const LIST_ALL_METHODS: string := "OPTIONS, GET, POST, PUT, DELETE, HEAD, TRACE, CONNECT, PATCH"

  /** The text of each method, in list order. */
  function MethodNames(ms: seq<Method>): (r: seq<string>)
    ensures |r| == |ms| && forall i :: 0 <= i < |ms| ==> r[i] == AsStr(ms[i])
  {
    seq(|ms|, i requires 0 <= i < |ms| => AsStr(ms[i]))
  }

  /** `join_header_names`: the names joined with `, `, when that is a valid header value. */
  function JoinHeaderNames(names: seq<HeaderName>): (r: Option<HeaderValue>)
    ensures r.Some? <==> IsValidHeaderValue(Join(names, ", "))
    ensures r.Some? ==> r.value == Join(names, ", ")
  {
    var joined := Join(names, ", ");
    if IsValidHeaderValue(joined) then Some(joined) else None
  }

  /**
   * The value of `Access-Control-Allow-Methods`: the full list under `Any`;
   * nothing with no list or an empty one; otherwise the listed methods
   * joined with `, `, when that is a valid header value.
   */
  function AllowMethodsValue(a: Allowable<Method>): (r: Option<HeaderValue>)
    ensures a.Any? ==> r == Some(LIST_ALL_METHODS)
    ensures a.Bounded? && (a.b.NotListed? || a.b.items == []) ==> r.None?
    ensures a.Bounded? && a.b.Listed? && a.b.items != [] ==>
      r == JoinHeaderNames(MethodNames(a.b.items))
  {
    match a
    case Any => Some(LIST_ALL_METHODS)
    case Bounded(Listed(ms)) => if ms == [] then None else JoinHeaderNames(MethodNames(ms))
    case Bounded(NotListed) => None
  }

  /** The value of a header-name list header, when the list is there and joins validly. */
  function NamesValue(b: Bounded<HeaderName>): (r: Option<HeaderValue>)
    ensures b.NotListed? ==> r.None?
    ensures b.Listed? ==> r == JoinHeaderNames(b.items)
  {
    match b
    case Listed(names) => JoinHeaderNames(names)
    case NotListed => None
  }

  /**
   * `preflight_response`: the response headers, inserted one after the
   * other. The request's origin is always echoed; credentials are
   * announced exactly when allowed; the methods, allowed headers and
   * exposed headers appear exactly when they have a value.
   */
  method PreflightResponse(c: CorsConfiguration, origin: HeaderValue) returns (headers: map<HeaderName, HeaderValue>)
    ensures headers.Keys <= {
      ACCESS_CONTROL_ALLOW_ORIGIN, ACCESS_CONTROL_ALLOW_CREDENTIALS, ACCESS_CONTROL_EXPOSE_HEADERS,
      ACCESS_CONTROL_ALLOW_METHODS, ACCESS_CONTROL_ALLOW_HEADERS}
    ensures ACCESS_CONTROL_ALLOW_ORIGIN in headers && headers[ACCESS_CONTROL_ALLOW_ORIGIN] == origin
    ensures ACCESS_CONTROL_ALLOW_CREDENTIALS in headers <==> c.allowCredentials
    ensures ACCESS_CONTROL_ALLOW_CREDENTIALS in headers ==> headers[ACCESS_CONTROL_ALLOW_CREDENTIALS] == "true"
    ensures ACCESS_CONTROL_ALLOW_METHODS in headers <==> AllowMethodsValue(c.allowMethods).Some?
    ensures ACCESS_CONTROL_ALLOW_METHODS in headers ==>
      headers[ACCESS_CONTROL_ALLOW_METHODS] == AllowMethodsValue(c.allowMethods).value
    ensures ACCESS_CONTROL_ALLOW_HEADERS in headers <==> NamesValue(c.allowHeaders).Some?
    ensures ACCESS_CONTROL_ALLOW_HEADERS in headers ==>
      headers[ACCESS_CONTROL_ALLOW_HEADERS] == NamesValue(c.allowHeaders).value
    ensures ACCESS_CONTROL_EXPOSE_HEADERS in headers <==> NamesValue(c.exposeHeaders).Some?
    ensures ACCESS_CONTROL_EXPOSE_HEADERS in headers ==>
      headers[ACCESS_CONTROL_EXPOSE_HEADERS] == NamesValue(c.exposeHeaders).value
  {
    if c.allowCredentials {
      headers := map[ACCESS_CONTROL_ALLOW_CREDENTIALS := "true"];
    } else {
      headers := map[];
    }
    headers := headers[ACCESS_CONTROL_ALLOW_ORIGIN := origin];
    if c.exposeHeaders.Listed? {
      var exposed := JoinHeaderNames(c.exposeHeaders.items);
      if exposed.Some? {
        headers := headers[ACCESS_CONTROL_EXPOSE_HEADERS := exposed.value];
      }
    }
    if c.allowCredentials {
      headers := headers[ACCESS_CONTROL_ALLOW_CREDENTIALS := "true"];
    }
    match c.allowMethods {
      case Any =>
        headers := headers[ACCESS_CONTROL_ALLOW_METHODS := LIST_ALL_METHODS];
      case Bounded(Listed(ms)) =>
        if ms != [] {
          var joined := Join(MethodNames(ms), ", ");
          if IsValidHeaderValue(joined) {
            headers := headers[ACCESS_CONTROL_ALLOW_METHODS := joined];
          }
        }
      case Bounded(NotListed) =>
    }
    if c.allowHeaders.Listed? {
      var allowed := JoinHeaderNames(c.allowHeaders.items);
      if allowed.Some? {
        headers := headers[ACCESS_CONTROL_ALLOW_HEADERS := allowed.value];
      }
    }
  }

  /** Joining valid header values with `, ` gives a valid header value. */
  lemma {:induction false} JoinValid(parts: seq<string>)
    requires forall i :: 0 <= i < |parts| ==> IsValidHeaderValue(parts[i])
    ensures IsValidHeaderValue(Join(parts, ", "))
  {
    if |parts| > 1 {
      JoinValid(parts[1..]);
      var rest := Join(parts[1..], ", ");
      var s := parts[0] + ", " + rest;
      assert forall k :: 0 <= k < |s| ==> s[k] == (if k < |parts[0]| then parts[0][k]
        else if k < |parts[0]| + 2 then ", "[k - |parts[0]|] else rest[k - |parts[0]| - 2]);
    }
  }

  /** A token is a valid header value. */
  lemma TokenValid(s: string)
    requires IsToken(s)
    ensures IsValidHeaderValue(s)
  {
  }

  /** The text of every well-formed method is a token. */
  lemma MethodNameIsToken(m: Method)
    requires WellFormed(m)
    ensures IsToken(AsStr(m))
  {
    match m
    case Extension(_) =>
    case _ =>
      var s := AsStr(m);
      assert forall i :: 0 <= i < |s| ==> 'A' <= s[i] <= 'Z';
  }

  /**
   * Under a well-formed configuration every list that is present reaches
   * the preflight response: `Access-Control-Allow-Methods` is there exactly
   * when methods are not left unlisted, and the header-name headers exactly
   * when their list is there.
   */
  lemma PreflightAdvertises(c: CorsConfiguration)
    requires WellFormedConfig(c)
    ensures AllowMethodsValue(c.allowMethods).Some? <==> c.allowMethods != Bounded(NotListed)
    ensures c.allowHeaders.Listed? ==> NamesValue(c.allowHeaders) == Some(Join(c.allowHeaders.items, ", "))
    ensures c.exposeHeaders.Listed? ==> NamesValue(c.exposeHeaders) == Some(Join(c.exposeHeaders.items, ", "))
  {
    if c.allowMethods.Bounded? && c.allowMethods.b.Listed? {
      var ms := c.allowMethods.b.items;
      forall i | 0 <= i < |ms|
        ensures IsValidHeaderValue(MethodNames(ms)[i])
      {
        assert Permits(c.allowMethods, ms[i]);
        MethodNameIsToken(ms[i]);
        TokenValid(AsStr(ms[i]));
      }
      JoinValid(MethodNames(ms));
    }
    NamesJoinValid(c.allowHeaders);
    NamesJoinValid(c.exposeHeaders);
  }

  /**
   * Distinct well-formed methods allowed one after the other, starting from
   * none, are advertised in the order they were allowed.
   */
  lemma MethodsAdvertisedInOrder(ms: seq<Method>)
    requires ms != [] && NoDuplicates(ms)
    requires forall i :: 0 <= i < |ms| ==> WellFormed(ms[i])
    ensures AllowMethodsValue(AllowableAddAll(NoneAllowed(), ms)) == Some(Join(MethodNames(ms), ", "))
  {
    AddedInOrder(ms);
    forall i | 0 <= i < |ms|
      ensures IsValidHeaderValue(MethodNames(ms)[i])
    {
      MethodNameIsToken(ms[i]);
      TokenValid(AsStr(ms[i]));
    }
    JoinValid(MethodNames(ms));
  }

  /**
   * Distinct header names added one after the other, starting from no
   * list, are advertised in the order they were added.
   */
  lemma NamesAdvertisedInOrder(ns: seq<HeaderName>)
    requires ns != [] && NoDuplicates(ns)
    requires forall i :: 0 <= i < |ns| ==> IsHeaderName(ns[i])
    ensures NamesValue(BoundedAddAll(NotListed, ns)) == Some(Join(ns, ", "))
  {
    AddedInOrder(ns);
    forall i | 0 <= i < |ns|
      ensures IsValidHeaderValue(ns[i])
    {
      TokenValid(ns[i]);
    }
    JoinValid(ns);
  }

  lemma NamesJoinValid(b: Bounded<HeaderName>)
    requires forall n :: Lists(b, n) ==> IsHeaderName(n)
    ensures b.Listed? ==> IsValidHeaderValue(Join(b.items, ", "))
  {
    if b.Listed? {
      forall i | 0 <= i < |b.items|
        ensures IsValidHeaderValue(b.items[i])
      {
        assert Lists(b, b.items[i]);
        TokenValid(b.items[i]);
      }
      JoinValid(b.items);
    }
  }
}
