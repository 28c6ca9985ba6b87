/** JavaScript value helpers the pages rely on: optional values, truthiness of
    string fields, ASCII case mapping, the string methods `startsWith`,
    `includes`, `slice(-n)` and `split(c)[0]`, and `Array.prototype.filter`. */
module Common {

  /** A value that may be `undefined` in the JavaScript source. */
  datatype Option<T> = None | Some(value: T)

  /** The outcome of one HTTP request against the remote API: the `try` branch
      after the `await`, or the `catch` branch. */
  datatype Outcome = Succeeded | Failed

  /** JavaScript truthiness of a string-valued field: `undefined` and "" are falsy. */
  predicate Truthy(o: Option<string>) {
    o.Some? && o.value != ""
  }

  /** `o || fallback` for a string-valued field. */
  function Or(o: Option<string>, fallback: string): string {
    if Truthy(o) then o.value else fallback
  }

  /** `o || alt` where the alternative may itself be missing. */
  function OrElse(o: Option<string>, alt: Option<string>): Option<string> {
    if Truthy(o) then o else alt
  }

  /** `String(v)` of a possibly missing string, as `FormData.append` performs it. */
  function ToText(o: Option<string>): string {
    match o
    case None => "undefined"
    case Some(s) => s
  }

  // ---------------------------------------------------------------------
  // Case mapping (ASCII letters only)

  function UpperChar(c: char): char {
    if 'a' <= c <= 'z' then (c as int - 32) as char else c
  }

  function LowerChar(c: char): char {
    if 'A' <= c <= 'Z' then (c as int + 32) as char else c
  }

  /** `s.toUpperCase()` */
  function Upper(s: string): (r: string)
    ensures |r| == |s|
    ensures forall i :: 0 <= i < |s| ==> r[i] == UpperChar(s[i])
  {
    seq(|s|, i requires 0 <= i < |s| => UpperChar(s[i]))
  }

  /** `s.toLowerCase()` */
  function Lower(s: string): (r: string)
    ensures |r| == |s|
    ensures forall i :: 0 <= i < |s| ==> r[i] == LowerChar(s[i])
  {
    seq(|s|, i requires 0 <= i < |s| => LowerChar(s[i]))
  }

  /** `o?.toUpperCase()` */
  function UpperOpt(o: Option<string>): Option<string> {
    match o
    case None => None
    case Some(s) => Some(Upper(s))
  }

  /** `o?.toLowerCase()` */
  function LowerOpt(o: Option<string>): Option<string> {
    match o
    case None => None
    case Some(s) => Some(Lower(s))
  }

  predicate IsLowerWord(w: string) {
    forall i :: 0 <= i < |w| ==> 'a' <= w[i] <= 'z'
  }

  /** Comparing `s.toLowerCase()` with a lower-case word decides the same thing
      as comparing `s.toUpperCase()` with that word in upper case. */
  lemma {:induction false} LowerMatchIffUpperMatch(s: string, w: string)
    requires IsLowerWord(w)
    ensures Lower(s) == w <==> Upper(s) == Upper(w)
  {
    if Lower(s) == w {
      forall i | 0 <= i < |s|
        ensures Upper(s)[i] == Upper(w)[i]
      {
        assert LowerChar(s[i]) == w[i];
      }
    }
    if Upper(s) == Upper(w) {
      forall i | 0 <= i < |s|
        ensures Lower(s)[i] == w[i]
      {
        assert UpperChar(s[i]) == UpperChar(w[i]);
      }
    }
  }

  /** The optional form of LowerMatchIffUpperMatch. */
  lemma LowerOptMatchIffUpperOptMatch(o: Option<string>, w: string)
    requires IsLowerWord(w)
    ensures LowerOpt(o) == Some(w) <==> UpperOpt(o) == Some(Upper(w))
  {
    if o.Some? {
      LowerMatchIffUpperMatch(o.value, w);
    }
  }

  // ---------------------------------------------------------------------
  // String methods

  /** `s.startsWith(prefix)` */
  predicate StartsWith(s: string, prefix: string) {
    |prefix| <= |s| && s[..|prefix|] == prefix
  }

  /** `s.endsWith(suffix)` */
  predicate EndsWith(s: string, suffix: string) {
    |suffix| <= |s| && s[|s| - |suffix|..] == suffix
  }

  /** `needle` occurs in `hay` starting at index `i`. */
  predicate OccursAt(hay: string, needle: string, i: int) {
    0 <= i <= |hay| - |needle| && hay[i..i + |needle|] == needle
  }

  /** `hay.includes(needle)` */
  predicate Includes(hay: string, needle: string) {
    exists i | 0 <= i <= |hay| - |needle| :: OccursAt(hay, needle, i)
  }

  /** Every string includes the empty string. */
  lemma IncludesEmpty(hay: string)
    ensures Includes(hay, "")
  {
    assert OccursAt(hay, "", 0);
  }

  /** `s.slice(-n)` for a positive `n`: the last `n` characters, or all of `s`
      when it is shorter. */
  function Last(s: string, n: nat): (r: string)
    requires n > 0
    ensures |r| == if |s| < n then |s| else n
    ensures EndsWith(s, r)
  {
    if |s| <= n then s else s[|s| - n..]
  }

  /** `s.split(c)[0]`: the part of `s` before the first `c`, or all of `s`. */
  function BeforeFirst(s: string, c: char): (r: string)
    ensures StartsWith(s, r)
    ensures c !in r
    ensures |r| < |s| ==> s[|r|] == c
  {
    if s == [] then []
    else if s[0] == c then []
    else [s[0]] + BeforeFirst(s[1..], c)
  }

  // ---------------------------------------------------------------------
  // Array.prototype.filter

  /** `r` can be obtained from `s` by deleting elements, so it keeps their order. */
  ghost predicate IsSubsequence<T>(r: seq<T>, s: seq<T>)
    decreases |s|
  {
    r == [] || (s != [] && ((r[0] == s[0] && IsSubsequence(r[1..], s[1..])) || IsSubsequence(r, s[1..])))
  }

  /** `s.filter(keep)`: exactly the elements that satisfy `keep`, each as often
      as in `s`, in their original order. */
  function Filter<T(!new)>(s: seq<T>, keep: T -> bool): (r: seq<T>)
    ensures |r| <= |s|
    ensures forall x :: multiset(r)[x] == if keep(x) then multiset(s)[x] else 0
    ensures IsSubsequence(r, s)
  {
    if s == [] then []
    else
      assert s == [s[0]] + s[1..];
      var rest := Filter(s[1..], keep);
      if keep(s[0]) then [s[0]] + rest else rest
  }

  /** A filter that keeps every element returns its input unchanged. */
  lemma {:induction false} FilterKeepsAll<T(!new)>(s: seq<T>, keep: T -> bool)
    requires forall i :: 0 <= i < |s| ==> keep(s[i])
    ensures Filter(s, keep) == s
  {
    if s != [] {
      FilterKeepsAll(s[1..], keep);
    }
  }
}
