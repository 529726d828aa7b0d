/** The string operations the application relies on: JavaScript white space
    (`\s`, `\S`, `String.prototype.trim`), lower-casing and `includes`. */
module Text {

  /** ECMAScript WhiteSpace and LineTerminator code points: what `\s` matches
      and what `trim` removes. */
  predicate IsWhitespace(c: char) {
    || c == '\t' || c == '\n' || c == '\U{B}' || c == '\U{C}' || c == '\r' || c == ' '
    || c == '\U{A0}' || c == '\U{1680}' || ('\U{2000}' <= c <= '\U{200A}')
    || c == '\U{2028}' || c == '\U{2029}' || c == '\U{202F}' || c == '\U{205F}'
    || c == '\U{3000}' || c == '\U{FEFF}'
  }

  /** Every character of `s` is white space (the empty string included). */
  predicate AllWhitespace(s: string) {
    forall i :: 0 <= i < |s| ==> IsWhitespace(s[i])
  }

  function TrimStart(s: string): (r: string)
    ensures |r| <= |s| && r == s[|s| - |r|..]
    ensures AllWhitespace(s[..|s| - |r|])
    ensures r != "" ==> !IsWhitespace(r[0])
  {
    if s != "" && IsWhitespace(s[0]) then TrimStart(s[1..]) else s
  }

  function TrimEnd(s: string): (r: string)
    ensures |r| <= |s| && r == s[..|r|]
    ensures AllWhitespace(s[|r|..])
    ensures r != "" ==> !IsWhitespace(r[|r| - 1])
  {
    if s != "" && IsWhitespace(s[|s| - 1]) then TrimEnd(s[..|s| - 1]) else s
  }

  /** `String.prototype.trim`: `s` without its leading and trailing white space. */
  function Trim(s: string): string {
    TrimEnd(TrimStart(s))
  }

  /** `t` is the slice `s[i..j]`, and only white space lies outside it. */
  predicate SliceBetweenBlanks(s: string, t: string, i: int, j: int) {
    0 <= i <= j <= |s| && t == s[i..j] && AllWhitespace(s[..i]) && AllWhitespace(s[j..])
  }

  /** The trimmed string is the slice of `s` between a white-space prefix and a
      white-space suffix, and it neither starts nor ends with white space. */
  lemma TrimIsSlice(s: string)
    ensures exists i, j :: SliceBetweenBlanks(s, Trim(s), i, j)
    ensures Trim(s) != "" ==> !IsWhitespace(Trim(s)[0]) && !IsWhitespace(Trim(s)[|Trim(s)| - 1])
  {
    var a := TrimStart(s);
    var t := TrimEnd(a);
    var i := |s| - |a|;
    assert Trim(s) == t;
    PrefixOfSuffix(s, a, t, i);
    assert SliceBetweenBlanks(s, Trim(s), i, i + |t|);
    if t != "" {
      assert t[0] == a[0];
    }
  }

  /** A prefix `t` of the suffix `a == s[i..]`, with white space before `a`
      and after `t`, is a slice of `s` between blanks. */
  lemma PrefixOfSuffix(s: string, a: string, t: string, i: int)
    requires 0 <= i <= |s| && a == s[i..] && |t| <= |a| && t == a[..|t|]
    requires AllWhitespace(s[..i]) && AllWhitespace(a[|t|..])
    ensures SliceBetweenBlanks(s, t, i, i + |t|)
  {
    assert a[|t|..] == s[i + |t|..];
  }

  /** A string is blank after trimming exactly when it is all white space. */
  lemma {:induction false} TrimEmpty(s: string)
    ensures Trim(s) == "" <==> AllWhitespace(s)
  {
    var a := TrimStart(s);
    if a == "" {
      assert s[..|s|] == s;
    } else {
      assert !IsWhitespace(a[0]);
      assert a[0] == s[|s| - |a|];
      assert TrimEnd(a) != "";
    }
  }

  /** Trimming a trimmed string changes nothing. */
  lemma TrimIdempotent(s: string)
    ensures Trim(Trim(s)) == Trim(s)
  {
    var t := Trim(s);
    TrimIsSlice(s);
    if t != "" {
      assert TrimStart(t) == t;
      assert TrimEnd(t) == t;
    }
  }

  /** ASCII lower-casing of one character; every other character is kept. */
  function LowerChar(c: char): char {
    if 'A' <= c <= 'Z' then (c as int + 32) as char else c
  }

  /** `toLowerCase` / `lower`, folding the ASCII letters. */
  function Lower(s: string): (r: string)
    ensures |r| == |s|
  {
    seq(|s|, i requires 0 <= i < |s| => LowerChar(s[i]))
  }

  /** A string with no ASCII capital letter (the Thai data, say) is its own lower case. */
  lemma LowerNoCapitals(s: string)
    requires forall i :: 0 <= i < |s| ==> !('A' <= s[i] <= 'Z')
    ensures Lower(s) == s
  {
  }

  /** Lower-casing twice is lower-casing once. */
  lemma LowerIdempotent(s: string)
    ensures Lower(Lower(s)) == Lower(s)
  {
  }

  /** `s.includes(t)`: `t` occurs in `s` as a contiguous substring. */
  predicate Contains(s: string, t: string) {
    t <= s || (s != "" && Contains(s[1..], t))
  }

  /** `t` occurs in `s` starting at index `i`. */
  predicate OccursAt(s: string, t: string, i: int) {
    0 <= i && i + |t| <= |s| && s[i..i + |t|] == t
  }

  /** `Contains` holds exactly when `t` occurs in `s` at some index. */
  lemma {:induction false} ContainsAt(s: string, t: string)
    ensures Contains(s, t) <==> exists i :: OccursAt(s, t, i)
  {
    if t <= s {
      assert OccursAt(s, t, 0);
    } else if s == "" {
    } else {
      ContainsAt(s[1..], t);
      assert !OccursAt(s, t, 0);
      forall k | OccursAt(s[1..], t, k) ensures OccursAt(s, t, k + 1) {
        assert s[k + 1..k + 1 + |t|] == s[1..][k..k + |t|];
      }
      forall i | OccursAt(s, t, i) ensures OccursAt(s[1..], t, i - 1) {
        assert s[1..][i - 1..i - 1 + |t|] == s[i..i + |t|];
      }
    }
  }

  /** The empty string occurs in every string, so an empty search term matches everything. */
  lemma ContainsEmpty(s: string)
    ensures Contains(s, "")
  {
  }
  /** `parts.join(sep)`: the parts in order with `sep` between neighbours. */
  function Join(parts: seq<string>, sep: string): (r: string)
    ensures parts == [] ==> r == ""
    ensures |parts| == 1 ==> r == parts[0]
  {
    if parts == [] then ""
    else if |parts| == 1 then parts[0]
    else Join(parts[..|parts| - 1], sep) + sep + parts[|parts| - 1]
  }

  /** Joined from the front: the first part, the separator, and the join of
      the rest. */
  lemma {:induction false} JoinCons(parts: seq<string>, sep: string)
    requires |parts| >= 2
    ensures Join(parts, sep) == parts[0] + sep + Join(parts[1..], sep)
  {
    var init := parts[..|parts| - 1];
    var last := parts[|parts| - 1];
    var tail := parts[1..];
    assert tail[..|tail| - 1] == init[1..] && tail[|tail| - 1] == last;
    assert init[0] == parts[0];
    if |init| == 1 {
      assert tail == [last];
    } else {
      JoinCons(init, sep);
      assert Join(tail, sep) == Join(init[1..], sep) + sep + last;
    }
  }
}
