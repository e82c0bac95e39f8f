/**
 * The few JavaScript string operations the front end and the agent run rely on:
 * `split` on a one-character separator, `join`, "the piece after the last
 * separator" (`split(sep).pop()`), `toLowerCase` and `includes`.
 */
module Text {

  /** `parts.join(sep)`. */
  function Join(parts: seq<string>, sep: string): (r: string)
    ensures |parts| == 0 ==> r == ""
    ensures |parts| > 0 ==> parts[0] <= r
  {
    if |parts| == 0 then ""
    else if |parts| == 1 then parts[0]
    else parts[0] + sep + Join(parts[1..], sep)
  }

  /**
   * `s.split(sep)` for a one-character separator: never empty, no piece holds
   * the separator, and joining the pieces back gives `s`.
   */
  function Split(s: string, sep: char): (parts: seq<string>)
    ensures |parts| >= 1
    ensures forall k :: 0 <= k < |parts| ==> sep !in parts[k]
    ensures Join(parts, [sep]) == s
  {
    if s == [] then [""]
    else
      var rest := Split(s[1..], sep);
      if s[0] == sep then
        [""] + rest
      else
        assert s == [s[0]] + s[1..];
        [[s[0]] + rest[0]] + rest[1..]
  }

  /**
   * The longest suffix of `s` free of `sep`: all of `s` when `sep` does not
   * occur, otherwise what follows its last occurrence.
   */
  function AfterLast(s: string, sep: char): (r: string)
    ensures |r| <= |s| && r == s[|s| - |r|..]
    ensures sep !in r
    ensures |r| < |s| ==> s[|s| - |r| - 1] == sep
  {
    if s == [] then ""
    else if s[|s| - 1] == sep then ""
    else AfterLast(s[..|s| - 1], sep) + [s[|s| - 1]]
  }

  /** The three properties of `AfterLast` determine it. */
  lemma SepFreeSuffixUnique(s: string, sep: char, r1: string, r2: string)
    requires |r1| <= |s| && r1 == s[|s| - |r1|..] && sep !in r1 && (|r1| < |s| ==> s[|s| - |r1| - 1] == sep)
    requires |r2| <= |s| && r2 == s[|s| - |r2|..] && sep !in r2 && (|r2| < |s| ==> s[|s| - |r2| - 1] == sep)
    ensures r1 == r2
  {
  }

  /** Joining a non-empty list splits off its last piece. */
  lemma {:induction false} JoinLast(parts: seq<string>, sep: string)
    requires |parts| > 1
    ensures Join(parts, sep) == Join(parts[..|parts| - 1], sep) + sep + parts[|parts| - 1]
  {
    if |parts| > 2 {
      JoinLast(parts[1..], sep);
      assert parts[1..][..|parts| - 2] == parts[..|parts| - 1][1..];
    }
  }

  /** The last piece of a separator-free split of `s` is the part after its last separator. */
  lemma LastPiece(s: string, sep: char, parts: seq<string>)
    requires |parts| >= 1 && Join(parts, [sep]) == s
    requires sep !in parts[|parts| - 1]
    ensures parts[|parts| - 1] == AfterLast(s, sep)
  {
    var last := parts[|parts| - 1];
    if |parts| > 1 {
      JoinLast(parts, [sep]);
      var front := Join(parts[..|parts| - 1], [sep]);
      assert s == (front + [sep]) + last;
      assert s[|s| - |last|..] == last;
      assert s[|s| - |last| - 1] == sep;
    }
    SepFreeSuffixUnique(s, sep, last, AfterLast(s, sep));
  }

  /** `s.split(sep).pop()` is the part of `s` after its last `sep`. */
  lemma {:induction false} SplitLast(s: string, sep: char)
    ensures Split(s, sep)[|Split(s, sep)| - 1] == AfterLast(s, sep)
  {
    var parts := Split(s, sep);
    var last := parts[|parts| - 1];
    assert sep !in last;
    LastPiece(s, sep, parts);
    assert last == AfterLast(s, sep);
  }

  /** ASCII `toLowerCase` of one character. */
  function LowerChar(c: char): char
  {
    if 'A' <= c <= 'Z' then (c as int + 32) as char else c
  }

  predicate IsUpper(c: char) { 'A' <= c <= 'Z' }

  /** `s.toLowerCase()`, restricted to ASCII letters. */
  function Lower(s: string): (r: string)
    ensures |r| == |s|
    ensures forall i :: 0 <= i < |s| ==> r[i] == LowerChar(s[i])
  {
    if s == [] then [] else [LowerChar(s[0])] + Lower(s[1..])
  }

  /** Lowering leaves no upper-case letter and is idempotent. */
  lemma LowerIsLower(s: string)
    ensures forall i :: 0 <= i < |s| ==> !IsUpper(Lower(s)[i])
    ensures Lower(Lower(s)) == Lower(s)
  {
  }

  /** `s.includes(sub)`: a prefix of `s` is included, and nothing longer than `s`. */
  predicate Contains(s: string, sub: string)
    ensures sub <= s ==> Contains(s, sub)
    ensures Contains(s, sub) ==> |sub| <= |s|
  {
    assert s[0..] == s;
    exists i | 0 <= i <= |s| :: sub <= s[i..]
  }
}
