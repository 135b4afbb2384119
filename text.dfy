/**
 * The string operations the engine relies on: upper-casing, the substring
 * test of `indexOf(q) >= 0`, `split(':')[1]` and `Array.prototype.slice(0, end)`.
 */
module Text {

  predicate IsLower(c: char) { 'a' <= c <= 'z' }

  /** Upper-case one character (ASCII letters only). */
  function UpperChar(c: char): (u: char)
    ensures !IsLower(u)
    ensures IsLower(c) ==> u as int == c as int - 32
    ensures IsLower(c) || u == c
  {
    if IsLower(c) then (c as int - 32) as char else c
  }

  /** `s.toUpperCase()`, restricted to ASCII letters. */
  function Upper(s: string): (r: string)
    ensures |r| == |s|
    ensures forall i :: 0 <= i < |s| ==> r[i] == UpperChar(s[i])
  {
    seq(|s|, i requires 0 <= i < |s| => UpperChar(s[i]))
  }

  /** `s` starts with `p`. */
  predicate StartsWith(s: string, p: string) {
    |p| <= |s| && s[..|p|] == p
  }

  /** `q` occurs in `s` starting at position `i`. */
  predicate OccursAt(s: string, q: string, i: int) {
    0 <= i <= |s| - |q| && s[i..i + |q|] == q
  }

  /** `s.indexOf(q) >= 0`: `q` occurs in `s` at some position. */
  function Contains(s: string, q: string): (r: bool)
    ensures r <==> exists i :: OccursAt(s, q, i)
    decreases |s|
  {
    if StartsWith(s, q) then
      assert OccursAt(s, q, 0);
      true
    else if |s| == 0 then
      false
    else
      var r := Contains(s[1..], q);
      if r then
        var i :| OccursAt(s[1..], q, i);
        assert s[i + 1..i + 1 + |q|] == s[1..][i..i + |q|];
        assert OccursAt(s, q, i + 1);
        true
      else
        assert forall i :: OccursAt(s, q, i) ==> i == 0 || OccursAt(s[1..], q, i - 1) by {
          forall i | OccursAt(s, q, i) && i != 0 ensures OccursAt(s[1..], q, i - 1) {
            assert s[1..][i - 1..i - 1 + |q|] == s[i..i + |q|];
          }
        }
        false
  }

  /** The part of `s` before its first ':' (all of `s` when it has none). */
  function BeforeColon(s: string): (r: string)
    ensures |r| <= |s| && ':' !in r
    ensures r == s[..|r|]
    ensures |r| < |s| ==> s[|r|] == ':'
  {
    if |s| == 0 || s[0] == ':' then "" else [s[0]] + BeforeColon(s[1..])
  }

  /** The part of `s` after its first ':'. */
  function AfterColon(s: string): (r: string)
    requires ':' in s
    ensures |r| < |s| && r == s[|s| - |r|..]
    ensures s[|s| - |r| - 1] == ':' && ':' !in s[..|s| - |r| - 1]
  {
    if s[0] == ':' then s[1..] else AfterColon(s[1..])
  }

  /**
   * `s.split(':')`, keeping only what the lookup reads: the second
   * component when there is more than one, otherwise `s` itself.
   */
  function SecondComponentOrWhole(s: string): (r: string)
    ensures ':' !in s ==> r == s
    ensures ':' in s ==> ':' !in r && exists i :: FirstColonAt(s, i) && EndsComponent(s, i + 1, r)
  {
    if ':' in s then
      SecondComponentIsBetweenColons(s);
      BeforeColon(AfterColon(s))
    else s
  }

  lemma SecondComponentIsBetweenColons(s: string)
    requires ':' in s
    ensures var b := BeforeColon(AfterColon(s));
      ':' !in b && FirstColonAt(s, |s| - |AfterColon(s)| - 1) && EndsComponent(s, |s| - |AfterColon(s)|, b)
  {
    var a := AfterColon(s);
    var b := BeforeColon(a);
    var start := |s| - |a|;
    assert a == s[start..];
    assert b == a[..|b|];
    assert b == s[start..start + |b|];
    if |b| < |a| {
      assert s[start + |b|] == a[|b|];
    }
  }

  /** `s[i]` is the first ':' of `s`. */
  predicate FirstColonAt(s: string, i: int) {
    0 <= i < |s| && s[i] == ':' && ':' !in s[..i]
  }

  /** `c` is the text of `s` from `start` up to the next ':' or the end. */
  predicate EndsComponent(s: string, start: nat, c: string) {
    start + |c| <= |s| && c == s[start..start + |c|] && (start + |c| == |s| || s[start + |c|] == ':')
  }

  lemma {:induction false} AfterColonOfJoin(p: string, s: string)
    requires ':' !in p
    ensures ':' in p + ":" + s
    ensures AfterColon(p + ":" + s) == s
  {
    if p != [] {
      assert (p + ":" + s)[1..] == p[1..] + ":" + s;
      AfterColonOfJoin(p[1..], s);
    }
  }

  /**
   * `"EX:sym".split(':')[1] == "sym"` when neither part holds a colon.
   */
  lemma SecondComponentOfPrefixed(p: string, s: string)
    requires ':' !in p && ':' !in s
    ensures SecondComponentOrWhole(p + ":" + s) == s
  {
    AfterColonOfJoin(p, s);
    var b := BeforeColon(s);
    assert |b| == |s|;
  }

  /**
   * `arr.slice(0, end)` for an integer `end`: a negative end counts from
   * the back, an end past the length is clamped.
   */
  function SliceTo<T>(s: seq<T>, end: int): (r: seq<T>)
    ensures end >= 0 ==> |r| == if end < |s| then end else |s|
    ensures end < 0 ==> |r| == if |s| + end > 0 then |s| + end else 0
    ensures r == s[..|r|]
  {
    var e := if end < 0 then |s| + end else end;
    if e <= 0 then [] else if e >= |s| then s else s[..e]
  }
}
