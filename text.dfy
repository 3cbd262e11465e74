/** The string operations the core applies to user input and airport
    fields: `trim`, ASCII case mapping, `startsWith` and `includes`. */
module Text {

  /** The ASCII characters `String.prototype.trim` removes. */
  predicate IsSpace(c: char) {
    c == ' ' || c == '\t' || c == '\n' || c == '\r' || c == '\U{0B}' || c == '\U{0C}'
  }

  predicate AllSpace(s: string) {
    forall i :: 0 <= i < |s| ==> IsSpace(s[i])
  }

  /** Drops the leading whitespace: the result is the longest suffix of `s`
      that does not start with whitespace. */
  function TrimStart(s: string): (r: string)
    ensures |r| <= |s| && r == s[|s| - |r|..]
    ensures AllSpace(s[..|s| - |r|])
    ensures r != [] ==> !IsSpace(r[0])
  {
    if s == [] then []
    else if IsSpace(s[0]) then TrimStart(s[1..])
    else s
  }

  /** Drops the trailing whitespace: the result is the longest prefix of `s`
      that does not end with whitespace. */
  function TrimEnd(s: string): (r: string)
    ensures |r| <= |s| && r == s[..|r|]
    ensures AllSpace(s[|r|..])
    ensures r != [] ==> !IsSpace(r[|r| - 1])
  {
    if s == [] then []
    else if IsSpace(s[|s| - 1]) then TrimEnd(s[..|s| - 1])
    else s
  }

  /** `s.trim()`, restricted to ASCII whitespace. */
  function Trim(s: string): string {
    TrimEnd(TrimStart(s))
  }

  function UpperChar(c: char): char {
    if 'a' <= c <= 'z' then (c as int - 32) as char else c
  }

  function LowerChar(c: char): char {
    if 'A' <= c <= 'Z' then (c as int + 32) as char else c
  }

  /** `s.toUpperCase()` on ASCII letters; every other character is kept. */
  function Upper(s: string): (r: string)
    ensures |r| == |s|
  {
    seq(|s|, i requires 0 <= i < |s| => UpperChar(s[i]))
  }

  /** `s.toLowerCase()` on ASCII letters; every other character is kept. */
  function Lower(s: string): (r: string)
    ensures |r| == |s|
  {
    seq(|s|, i requires 0 <= i < |s| => LowerChar(s[i]))
  }

  /** `s.startsWith(p)`. */
  predicate IsPrefix(p: string, s: string) {
    |p| <= |s| && s[..|p|] == p
  }

  /** `s.endsWith(t)`. */
  predicate IsSuffix(t: string, s: string) {
    |t| <= |s| && s[|s| - |t|..] == t
  }

  /** `s.includes(q)`: `q` occurs in `s` at some offset. */
  predicate Contains(s: string, q: string) {
    IsPrefix(q, s) || (s != [] && Contains(s[1..], q))
  }

  /** The autocomplete normalisation: `s.trim().toLowerCase()`. */
  function Normalize(s: string): string {
    Lower(Trim(s))
  }

  lemma {:induction false} TrimStartLower(s: string)
    ensures TrimStart(Lower(s)) == Lower(TrimStart(s))
  {
    if s != [] {
      assert Lower(s)[1..] == Lower(s[1..]);
      if IsSpace(s[0]) {
        TrimStartLower(s[1..]);
      }
    }
  }

  lemma {:induction false} TrimEndLower(s: string)
    ensures TrimEnd(Lower(s)) == Lower(TrimEnd(s))
  {
    if s != [] {
      assert Lower(s)[..|s| - 1] == Lower(s[..|s| - 1]);
      if IsSpace(s[|s| - 1]) {
        TrimEndLower(s[..|s| - 1]);
      }
    }
  }

  /** Trimming and lower-casing commute, so the normalised query is the
      trimmed lower-cased input. */
  lemma NormalizeIsTrimOfLower(s: string)
    ensures Normalize(s) == Trim(Lower(s))
  {
    TrimStartLower(s);
    TrimEndLower(TrimStart(s));
  }

  /** Two inputs that differ only in the case of ASCII letters normalise alike. */
  lemma NormalizeIgnoresCase(s: string, t: string)
    requires Lower(s) == Lower(t)
    ensures Normalize(s) == Normalize(t)
  {
    NormalizeIsTrimOfLower(s);
    NormalizeIsTrimOfLower(t);
  }

  lemma {:induction false} TrimStartAppend(s: string, t: string)
    ensures TrimStart(s + t) == if TrimStart(s) == [] then TrimStart(t) else TrimStart(s) + t
  {
    if s == [] {
      assert s + t == t;
    } else {
      assert (s + t)[1..] == s[1..] + t;
      if IsSpace(s[0]) {
        TrimStartAppend(s[1..], t);
      }
    }
  }

  lemma {:induction false} TrimStartOfSpace(ws: string)
    requires AllSpace(ws)
    ensures TrimStart(ws) == []
  {
    if ws != [] {
      TrimStartOfSpace(ws[1..]);
    }
  }

  lemma {:induction false} TrimEndAppendSpace(s: string, ws: string)
    requires AllSpace(ws)
    ensures TrimEnd(s + ws) == TrimEnd(s)
  {
    if ws == [] {
      assert s + ws == s;
    } else {
      var n := |s + ws|;
      assert (s + ws)[..n - 1] == s + ws[..|ws| - 1];
      TrimEndAppendSpace(s, ws[..|ws| - 1]);
    }
  }

  /** Whitespace typed around a query does not change its normalisation. */
  lemma NormalizeIgnoresPadding(before: string, s: string, after: string)
    requires AllSpace(before) && AllSpace(after)
    ensures Normalize(before + s + after) == Normalize(s)
  {
    var padded := before + s + after;
    assert padded == before + (s + after);
    TrimStartOfSpace(before);
    TrimStartAppend(before, s + after);
    assert TrimStart(padded) == TrimStart(s + after);
    TrimStartOfSpace(after);
    TrimStartAppend(s, after);
    if TrimStart(s) == [] {
      assert TrimStart(padded) == [];
    } else {
      TrimEndAppendSpace(TrimStart(s), after);
      assert Trim(padded) == Trim(s);
    }
  }
}
