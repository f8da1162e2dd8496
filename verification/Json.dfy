/** The JSON-like values that tools, schemas and language models exchange, and Python's string helpers on them. */
module Json {
  datatype Json =
    | Null
    | Bool(flag: bool)
    | Num(number: real)
    | Str(text: string)
    | Arr(items: seq<Json>)
    | Obj(fields: map<string, Json>)

  /** Python's truth value, negated. */
  predicate Falsy(v: Json) {
    match v
    case Null => true
    case Bool(b) => !b
    case Num(n) => n == 0.0
    case Str(s) => s == ""
    case Arr(a) => a == []
    case Obj(m) => m == map[]
  }

  predicate IsUpper(c: char) { 'A' <= c <= 'Z' }
  predicate IsLower(c: char) { 'a' <= c <= 'z' }

  function UpperChar(c: char): char {
    if IsLower(c) then (c as int - 32) as char else c
  }

  function LowerChar(c: char): char {
    if IsUpper(c) then (c as int + 32) as char else c
  }

  /** `str.upper` and `str.lower` on ASCII text. */
  function Upper(s: string): (r: string)
    ensures |r| == |s| && forall i :: 0 <= i < |s| ==> r[i] == UpperChar(s[i])
  {
    if s == "" then "" else [UpperChar(s[0])] + Upper(s[1..])
  }

  function Lower(s: string): (r: string)
    ensures |r| == |s| && forall i :: 0 <= i < |s| ==> r[i] == LowerChar(s[i])
  {
    if s == "" then "" else [LowerChar(s[0])] + Lower(s[1..])
  }

  lemma CaseLaws(s: string)
    ensures Upper(Upper(s)) == Upper(s) && Lower(Lower(s)) == Lower(s)
    ensures Lower(Upper(s)) == Lower(s) && Upper(Lower(s)) == Upper(s)
  {
  }

  /** Lower-casing changes nothing exactly when there is no upper-case letter. */
  lemma LowerFixes(s: string)
    ensures Lower(s) == s <==> forall i :: 0 <= i < |s| ==> !IsUpper(s[i])
  {
    if Lower(s) == s {
      forall i | 0 <= i < |s| ensures !IsUpper(s[i]) {
        assert LowerChar(s[i]) == s[i];
      }
    }
  }

  lemma UpperFixes(s: string)
    ensures Upper(s) == s <==> forall i :: 0 <= i < |s| ==> !IsLower(s[i])
  {
    if Upper(s) == s {
      forall i | 0 <= i < |s| ensures !IsLower(s[i]) {
        assert UpperChar(s[i]) == s[i];
      }
    }
  }

  /** The ASCII characters that `str.strip` removes. */
  predicate IsSpace(c: char) {
    c == ' ' || 9 <= c as int <= 13 || 28 <= c as int <= 31
  }

  function StripLeft(s: string): (r: string)
    ensures r == "" || !IsSpace(r[0])
  {
    if s != "" && IsSpace(s[0]) then StripLeft(s[1..]) else s
  }

  function Strip(s: string): (r: string)
    ensures r != "" ==> !IsSpace(r[0]) && !IsSpace(r[|r| - 1])
  {
    StripRight(StripLeft(s))
  }

  function StripRight(s: string): (r: string)
    ensures r <= s && (r == "" || !IsSpace(r[|r| - 1]))
  {
    if s != "" && IsSpace(s[|s| - 1]) then StripRight(s[..|s| - 1]) else s
  }

  /** Nothing but spaces, tabs, line ends and the four separators. */
  predicate AllSpace(s: string) {
    forall i :: 0 <= i < |s| ==> s[i] as int in {9, 10, 11, 12, 13, 28, 29, 30, 31, 32}
  }

  lemma {:induction false} StripLeftDrops(s: string) returns (pre: string)
    ensures s == pre + StripLeft(s) && AllSpace(pre)
  {
    if s != "" && IsSpace(s[0]) {
      var rest := StripLeftDrops(s[1..]);
      pre := [s[0]] + rest;
    } else {
      pre := "";
    }
  }

  lemma {:induction false} StripRightDrops(s: string) returns (post: string)
    ensures s == StripRight(s) + post && AllSpace(post)
  {
    if s != "" && IsSpace(s[|s| - 1]) {
      var rest := StripRightDrops(s[..|s| - 1]);
      post := rest + [s[|s| - 1]];
      assert s == s[..|s| - 1] + [s[|s| - 1]];
    } else {
      post := "";
    }
  }

  /** Stripping takes white space off both ends, all of it and nothing else. */
  lemma StripDrops(s: string) returns (pre: string, post: string)
    ensures s == pre + Strip(s) + post && AllSpace(pre) && AllSpace(post)
    ensures Strip(s) != "" ==> !AllSpace(Strip(s)[..1]) && !AllSpace(Strip(s)[|Strip(s)| - 1..])
  {
    pre := StripLeftDrops(s);
    post := StripRightDrops(StripLeft(s));
    var r := Strip(s);
    if r != "" {
      assert r[..1][0] == r[0] && r[|r| - 1..][0] == r[|r| - 1];
    }
  }

  /** Python's `part in s`. */
  predicate Contains(s: string, part: string) {
    exists i :: 0 <= i <= |s| && part <= s[i..]
  }

  /** A text contains a part exactly when it is that part with something before and after it. */
  lemma ContainsIff(s: string, part: string)
    ensures Contains(s, part) <==> exists pre: string, post: string :: s == pre + part + post
  {
    if Contains(s, part) {
      var i :| 0 <= i <= |s| && part <= s[i..];
      assert s == s[..i] + part + s[i + |part|..];
    }
    if exists pre: string, post: string :: s == pre + part + post {
      var pre: string, post: string :| s == pre + part + post;
      assert s[|pre|..] == part + post;
    }
  }
}
