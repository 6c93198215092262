/**
 * The few operations of Rust's `str` that the router relies on, on strings
 * as sequences of characters: `starts_with`, `find`, `trim_start_matches`,
 * `trim_matches`, `split` and `join`, all with a single-character pattern.
 */
module Text {
  import opened Wrappers

  predicate StartsWith(s: string, c: char) {
    |s| > 0 && s[0] == c
  }

  predicate EndsWith(s: string, c: char) {
    |s| > 0 && s[|s| - 1] == c
  }

  /** `str::find(c)`: the position of the first `c`, if any. */
  function IndexOf(s: string, c: char): (r: Option<nat>)
    ensures r.Some? ==> r.value < |s| && s[r.value] == c && c !in s[..r.value]
    ensures r.None? <==> c !in s
  {
    IndexOfFrom(s, c, 0)
  }

  /** The scan behind `IndexOf`, from position `i` on, knowing there is no `c` before `i`. */
  function IndexOfFrom(s: string, c: char, i: nat): (r: Option<nat>)
    requires i <= |s| && c !in s[..i]
    ensures r.Some? ==> i <= r.value < |s| && s[r.value] == c && c !in s[..r.value]
    ensures r.None? <==> c !in s
    decreases |s| - i
  {
    if i == |s| then
      assert s[..i] == s;
      None
    else if s[i] == c then Some(i)
    else
      assert s[..i + 1] == s[..i] + [s[i]];
      IndexOfFrom(s, c, i + 1)
  }

  /** The first `c` in `a + [c] + b` is the one right after `a`, when `a` has none. */
  lemma IndexOfAfter(a: string, c: char, b: string)
    requires c !in a
    ensures IndexOf(a + [c] + b, c) == Some(|a|)
  {
    var s := a + [c] + b;
    assert s[|a|] == c;
    assert s[..|a|] == a;
  }

  /** `str::trim_start_matches(c)`: drops every leading `c`. */
  function TrimStart(s: string, c: char): (r: string)
    ensures |r| <= |s| && r == s[|s| - |r|..]
    ensures forall i :: 0 <= i < |s| - |r| ==> s[i] == c
    ensures !StartsWith(r, c)
  {
    if StartsWith(s, c) then TrimStart(s[1..], c) else s
  }

  /** `str::trim_end_matches(c)`: drops every trailing `c`. */
  function TrimEnd(s: string, c: char): (r: string)
    ensures |r| <= |s| && r == s[..|r|]
    ensures forall i :: |r| <= i < |s| ==> s[i] == c
    ensures !EndsWith(r, c)
  {
    if EndsWith(s, c) then TrimEnd(s[..|s| - 1], c) else s
  }

  /** `str::trim_matches(c)`: drops every leading and every trailing `c`. */
  function Trim(s: string, c: char): (r: string)
    ensures !StartsWith(r, c) && !EndsWith(r, c)
    ensures c !in s ==> r == s
  {
    var t := TrimStart(s, c);
    assert c !in s ==> t == s;
    TrimEnd(t, c)
  }

  /**
   * `[&str]::join(sep)`: the parts with `sep` between each two. Joined with
   * a one-character separator, it is the inverse of `Split`.
   */
  function Join(parts: seq<string>, sep: string): string {
    if |parts| == 0 then ""
    else if |parts| == 1 then parts[0]
    else parts[0] + sep + Join(parts[1..], sep)
  }

  /**
   * `str::split(sep)`, collected: the maximal `sep`-free pieces, in order.
   * There is always at least one piece (the empty string splits into `[""]`).
   */
  function Split(s: string, sep: char): (r: seq<string>)
    ensures |r| >= 1
    ensures forall i :: 0 <= i < |r| ==> sep !in r[i]
    ensures Join(r, [sep]) == s
    decreases |s|
  {
    match IndexOf(s, sep)
    case None => [s]
    case Some(k) =>
      var rest := Split(s[k + 1..], sep);
      var r := [s[..k]] + rest;
      assert r[1..] == rest;
      assert s == s[..k] + [sep] + s[k + 1..];
      r
  }

  /** `IndexOf` finds a `c` that no earlier `c` precedes. */
  lemma IndexOfFirst(s: string, c: char, i: nat)
    requires i < |s| && s[i] == c && c !in s[..i]
    ensures IndexOf(s, c) == Some(i)
  {
  }

  /** A `c` appended to text without one is the first `c`. */
  lemma IndexOfLast(a: string, c: char)
    requires c !in a
    ensures IndexOf(a + [c], c) == Some(|a|)
  {
    assert (a + [c])[..|a|] == a;
    IndexOfFirst(a + [c], c, |a|);
  }

  /** Splitting what `Join` glued back together gives the pieces back. */
  lemma {:induction false} SplitJoin(parts: seq<string>, sep: char)
    requires |parts| >= 1
    requires forall i :: 0 <= i < |parts| ==> sep !in parts[i]
    ensures Split(Join(parts, [sep]), sep) == parts
  {
    if |parts| > 1 {
      var s := Join(parts, [sep]);
      var k := |parts[0]|;
      assert s == parts[0] + [sep] + Join(parts[1..], [sep]);
      assert s[..k] == parts[0];
      assert s[k] == sep;
      IndexOfFirst(s, sep, k);
      assert s[k + 1..] == Join(parts[1..], [sep]);
      SplitJoin(parts[1..], sep);
      assert parts == [parts[0]] + parts[1..];
    }
  }

  /** Removing leading `c`s first does not change what `Trim` keeps. */
  lemma TrimIgnoresLeading(s: string, c: char)
    ensures Trim([c] + s, c) == Trim(s, c)
  {
    assert ([c] + s)[1..] == s;
  }

  /** Once something other than `c` is left, later text survives `TrimStart`. */
  lemma {:induction false} TrimStartAppend(s: string, t: string, c: char)
    requires TrimStart(s, c) != []
    ensures TrimStart(s + t, c) == TrimStart(s, c) + t
  {
    if StartsWith(s, c) {
      assert (s + t)[1..] == s[1..] + t;
      TrimStartAppend(s[1..], t, c);
    }
  }

  /** A string made only of `c` trims to nothing, whatever follows is `c` too. */
  lemma {:induction false} TrimStartAllSep(s: string, c: char)
    requires TrimStart(s, c) == []
    ensures TrimStart(s + [c], c) == []
  {
    if s == [] {
      assert ([] + [c])[1..] == [];
    } else {
      assert StartsWith(s, c);
      assert (s + [c])[1..] == s[1..] + [c];
      TrimStartAllSep(s[1..], c);
    }
  }

  /** `Trim` does not see a trailing `c`. */
  lemma TrimIgnoresTrailing(s: string, c: char)
    ensures Trim(s + [c], c) == Trim(s, c)
  {
    if TrimStart(s, c) == [] {
      TrimStartAllSep(s, c);
    } else {
      TrimStartAppend(s, [c], c);
      var t := TrimStart(s, c);
      assert (t + [c])[..|t + [c]| - 1] == t;
    }
  }

  /** `TrimStart` does not see a leading `c`. */
  lemma TrimStartIgnoresLeading(s: string, c: char)
    ensures TrimStart([c] + s, c) == TrimStart(s, c)
  {
    assert ([c] + s)[1..] == s;
  }

  /** A string that neither starts nor ends with `c` is its own trim. */
  lemma TrimUntouched(s: string, c: char)
    requires !StartsWith(s, c) && !EndsWith(s, c)
    ensures Trim(s, c) == s && TrimStart(s, c) == s
  {
  }
}
