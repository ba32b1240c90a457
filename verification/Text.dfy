/** White space, prefixes and suffixes of text. */
module Text {
  /** What Unicode counts as white space. */
  predicate Space(c: char) {
    var n := c as int;
    9 <= n <= 13 || n == 32 || n == 0x85 || n == 0xA0 || n == 0x1680 || 0x2000 <= n <= 0x200A
    || n == 0x2028 || n == 0x2029 || n == 0x202F || n == 0x205F || n == 0x3000
  }

  function TrimLeft(s: string): string {
    if s != [] && Space(s[0]) then TrimLeft(s[1..]) else s
  }

  function TrimRight(s: string): string {
    if s != [] && Space(s[|s| - 1]) then TrimRight(s[..|s| - 1]) else s
  }

  function Trim(s: string): string {
    TrimRight(TrimLeft(s))
  }

  /** What is before and after the first `sep`, and whether there is one. */
  function Cut(s: string, sep: char): (string, string, bool) {
    if s == [] then ("", "", false)
    else if s[0] == sep then ("", s[1..], true)
    else
      var rest := Cut(s[1..], sep);
      ([s[0]] + rest.0, rest.1, rest.2)
  }

  predicate EndsWith(s: string, end: string) {
    |s| >= |end| && s[|s| - |end|..] == end
  }

  function TrimSuffix(s: string, end: string): string {
    if EndsWith(s, end) then s[..|s| - |end|] else s
  }

  lemma {:induction false} CutAt(before: string, sep: char, after: string)
    requires sep !in before
    ensures Cut(before + [sep] + after, sep) == (before, after, true)
  {
    var s := before + [sep] + after;
    if before == [] {
      assert s[1..] == after;
    } else {
      CutAt(before[1..], sep, after);
      assert s[1..] == before[1..] + [sep] + after && s[0] == before[0] != sep;
      assert [before[0]] + before[1..] == before;
    }
  }

  lemma {:induction false} CutNone(s: string, sep: char)
    requires sep !in s
    ensures Cut(s, sep) == (s, "", false)
  {
    if s != [] {
      CutNone(s[1..], sep);
      assert [s[0]] + s[1..] == s;
    }
  }

  /** Text with no space at its ends is left as it is. */
  lemma TrimLeavesTight(s: string)
    requires s != [] ==> !Space(s[0]) && !Space(s[|s| - 1])
    ensures Trim(s) == s
  {
  }

  lemma {:induction false} TrimRightIsPrefix(s: string)
    ensures TrimRight(s) <= s
  {
    if s != [] && Space(s[|s| - 1]) { TrimRightIsPrefix(s[..|s| - 1]); }
  }

  lemma {:induction false} TrimLeftShrinks(s: string)
    ensures |TrimLeft(s)| <= |s|
  {
    if s != [] && Space(s[0]) { TrimLeftShrinks(s[1..]); }
  }

  lemma TrimShrinks(s: string)
    ensures |Trim(s)| <= |s|
  {
    TrimLeftShrinks(s);
    TrimRightIsPrefix(TrimLeft(s));
  }

  lemma {:induction false} CutShrinks(s: string, sep: char)
    ensures |Cut(s, sep).1| <= |s| && (Cut(s, sep).2 ==> |Cut(s, sep).1| < |s|) && (s != [] ==> |Cut(s, sep).1| < |s|)
  {
    if s != [] && s[0] != sep { CutShrinks(s[1..], sep); }
  }

  lemma EndsAlike(s: string, end: string)
    requires end != []
    ensures EndsWith(s, end) ==> s != [] && s[|s| - 1] == end[|end| - 1]
  {
    assert EndsWith(s, end) ==> s == s[..|s| - |end|] + end;
  }
}
