/**
 * String helpers with the meaning of the JavaScript built-ins the storefront
 * calls: `toLowerCase`/`toUpperCase` (ASCII letters only), `includes`,
 * `split` on one character, `join`, `trim`, and `filter(Boolean).join`.
 */
module Text {
  type String = seq<char>

  function LowerChar(c: char): char {
    if 'A' <= c <= 'Z' then (c as int + 32) as char else c
  }

  function UpperChar(c: char): char {
    if 'a' <= c <= 'z' then (c as int - 32) as char else c
  }

  /** `s.toLowerCase()` */
  function Lower(s: String): (r: String)
    ensures |r| == |s|
    ensures forall i :: 0 <= i < |r| ==> r[i] == LowerChar(s[i])
  {
    if s == [] then [] else [LowerChar(s[0])] + Lower(s[1..])
  }

  /** `s.toUpperCase()`: no lower-case ASCII letter is left, and nothing else changes. */
  function Upper(s: String): (r: String)
    ensures |r| == |s|
    ensures forall i :: 0 <= i < |r| ==> !('a' <= r[i] <= 'z')
    ensures forall i :: 0 <= i < |r| && !('a' <= s[i] <= 'z') ==> r[i] == s[i]
  {
    if s == [] then [] else [UpperChar(s[0])] + Upper(s[1..])
  }

  lemma {:induction false} UpperIdempotent(s: String)
    ensures Upper(Upper(s)) == Upper(s)
  {
    if s != [] {
      UpperIdempotent(s[1..]);
    }
  }

  predicate StartsWith(s: String, p: String) {
    |p| <= |s| && s[..|p|] == p
  }

  /** `s.includes(sub)` */
  predicate Contains(s: String, sub: String)
    decreases |s|
  {
    StartsWith(s, sub) || (|s| > 0 && Contains(s[1..], sub))
  }

  /** `s.split(c)` for a one-character separator: never empty, and no piece holds `c`. */
  function Split(s: String, c: char): (r: seq<String>)
    ensures |r| >= 1
    ensures forall i :: 0 <= i < |r| ==> c !in r[i]
    decreases |s|
  {
    if s == [] then [""]
    else if s[0] == c then [""] + Split(s[1..], c)
    else
      var rest := Split(s[1..], c);
      [[s[0]] + rest[0]] + rest[1..]
  }

  /** `parts.join(sep)` */
  function Join(parts: seq<String>, sep: String): String {
    if parts == [] then ""
    else if |parts| == 1 then parts[0]
    else parts[0] + sep + Join(parts[1..], sep)
  }

  /** Splitting on `c` and joining with `c` gives back the string. */
  lemma {:induction false} JoinSplit(s: String, c: char)
    ensures Join(Split(s, c), [c]) == s
    decreases |s|
  {
    if s == [] {
    } else if s[0] == c {
      JoinSplit(s[1..], c);
      assert s == [c] + s[1..];
    } else {
      JoinSplit(s[1..], c);
      var rest := Split(s[1..], c);
      if |rest| == 1 {
        assert Split(s, c) == [[s[0]] + rest[0]];
      } else {
        assert Split(s, c) == [[s[0]] + rest[0]] + rest[1..];
        assert Join(rest, [c]) == rest[0] + [c] + Join(rest[1..], [c]);
      }
    }
  }

  /** When the separator occurs, the first piece is followed by it and the rest. */
  lemma {:induction false} JoinSplitHead(s: String, c: char)
    requires c in s
    ensures |Split(s, c)| >= 2
    ensures Split(s, c)[0] + [c] + Join(Split(s, c)[1..], [c]) == s
  {
    var parts := Split(s, c);
    JoinSplit(s, c);
    if |parts| == 1 {
      assert false;
    }
  }

  /** A join starts with its first piece, followed by the separator when more pieces come. */
  lemma JoinHead(parts: seq<String>, sep: String)
    requires parts != []
    ensures |parts| == 1 ==> Join(parts, sep) == parts[0]
    ensures |parts| > 1 ==> parts[0] + sep <= Join(parts, sep)
  {
    if |parts| > 1 {
      var rest := Join(parts[1..], sep);
      assert Join(parts, sep) == parts[0] + sep + rest;
      assert (parts[0] + sep + rest)[..|parts[0] + sep|] == parts[0] + sep;
    }
  }

  /** Without the separator, `split` yields the whole string as its only piece. */
  lemma {:induction false} SplitWithout(s: String, c: char)
    requires c !in s
    ensures Split(s, c) == [s]
    decreases |s|
  {
    if s != [] {
      SplitWithout(s[1..], c);
      assert s == [s[0]] + s[1..];
    }
  }

  /** A separator-free prefix followed by the separator becomes the first piece. */
  lemma {:induction false} SplitConcat(t: String, c: char, rest: String)
    requires c !in t
    ensures Split(t + [c] + rest, c) == [t] + Split(rest, c)
    decreases |t|
  {
    if t == [] {
      assert t + [c] + rest == [c] + rest;
    } else {
      var s := t + [c] + rest;
      SplitConcat(t[1..], c, rest);
      assert s[0] == t[0] && s[0] != c;
      assert s[1..] == t[1..] + [c] + rest;
      var r := Split(s[1..], c);
      assert r[0] == t[1..] && r[1..] == Split(rest, c);
      assert [t[0]] + t[1..] == t;
    }
  }

  /** The characters `String.prototype.trim` strips (the Unicode spaces beyond these are not modelled). */
  predicate IsSpace(c: char) {
    c == ' ' || c == '\t' || c == '\n' || c == '\r' || c == '\U{B}' || c == '\U{C}'
  }

  function TrimStart(s: String): (r: String)
    ensures |r| <= |s| && r == s[|s| - |r|..]
    ensures r != [] ==> !IsSpace(r[0])
    ensures forall i :: 0 <= i < |s| - |r| ==> IsSpace(s[i])
  {
    if s != [] && IsSpace(s[0]) then TrimStart(s[1..]) else s
  }

  function TrimEnd(s: String): (r: String)
    ensures |r| <= |s| && r == s[..|r|]
    ensures r != [] ==> !IsSpace(r[|r| - 1])
    ensures forall i :: |r| <= i < |s| ==> IsSpace(s[i])
  {
    if s != [] && IsSpace(s[|s| - 1]) then TrimEnd(s[..|s| - 1]) else s
  }

  /** `s.trim()`: what is left neither starts nor ends with a space. */
  function Trim(s: String): (r: String)
    ensures |r| <= |s|
    ensures r != [] ==> !IsSpace(r[0]) && !IsSpace(r[|r| - 1])
  {
    TrimEnd(TrimStart(s))
  }

  /** A string already free of surrounding spaces is its own trim. */
  lemma TrimKeeps(s: String)
    requires s != [] ==> !IsSpace(s[0]) && !IsSpace(s[|s| - 1])
    ensures Trim(s) == s
  {
  }

  /** Keep the non-empty strings (`filter(Boolean)` on strings). */
  function NonEmpty(parts: seq<String>): (r: seq<String>)
    ensures |r| <= |parts|
    ensures forall i :: 0 <= i < |r| ==> r[i] != ""
    ensures forall x :: x in r <==> x in parts && x != ""
  {
    if parts == [] then []
    else if parts[0] == "" then NonEmpty(parts[1..])
    else [parts[0]] + NonEmpty(parts[1..])
  }

  /** Nothing to drop when every part is non-empty. */
  lemma {:induction false} NonEmptyAll(parts: seq<String>)
    requires forall i :: 0 <= i < |parts| ==> parts[i] != ""
    ensures NonEmpty(parts) == parts
  {
    if parts != [] {
      NonEmptyAll(parts[1..]);
    }
  }

  /** `parts.filter(Boolean).join(sep)` */
  function JoinNonEmpty(parts: seq<String>, sep: String): String {
    Join(NonEmpty(parts), sep)
  }

  /** A join of non-empty pieces is non-empty as soon as there is one. */
  lemma JoinNonEmptyBlank(parts: seq<String>, sep: String)
    ensures JoinNonEmpty(parts, sep) == "" <==> forall i :: 0 <= i < |parts| ==> parts[i] == ""
  {
    var kept := NonEmpty(parts);
    if kept != [] {
      assert kept[0] != "";
      assert |Join(kept, sep)| >= |kept[0]|;
      assert kept[0] in parts;
    } else {
      forall i | 0 <= i < |parts|
        ensures parts[i] == ""
      {
        assert parts[i] !in kept;
      }
    }
  }
}
