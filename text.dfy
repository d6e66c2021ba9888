/**
 * The Python string operations the controllers rely on, over `string`
 * (a sequence of code points): `startswith`, the `in` operator, `split`,
 * `join`, `lower`, `strip` and the line splitting done by `readlines`.
 */
module Text {

  /** Python's `s.startswith(p)`. */
  predicate StartsWith(s: string, p: string) {
    |p| <= |s| && s[..|p|] == p
  }

  /** `t` occurs in `s` starting at index `i`. */
  predicate OccursAt(s: string, t: string, i: nat) {
    i + |t| <= |s| && s[i..i + |t|] == t
  }

  /** Python's `t in s`. */
  predicate Contains(s: string, t: string) {
    exists i: nat | i <= |s| :: OccursAt(s, t, i)
  }

  /**
   * The first index at or after `from` where `sep` occurs in `s`, or `|s|`
   * when there is none.
   */
  function FindFrom(s: string, sep: string, from: nat): (k: nat)
    requires sep != [] && from <= |s|
    ensures from <= k <= |s|
    ensures k < |s| ==> OccursAt(s, sep, k)
    ensures forall j: nat :: from <= j < k ==> !OccursAt(s, sep, j)
    decreases |s| - from
  {
    if from + |sep| > |s| then |s|
    else if OccursAt(s, sep, from) then from
    else FindFrom(s, sep, from + 1)
  }

  /** Python's `s.split(sep)`: cut at each leftmost non-overlapping occurrence of `sep`. */
  function Split(s: string, sep: string): (parts: seq<string>)
    requires sep != []
    ensures |parts| >= 1
    decreases |s|
  {
    var k := FindFrom(s, sep, 0);
    if k == |s| then [s] else [s[..k]] + Split(s[k + |sep|..], sep)
  }

  /** Python's `sep.join(parts)`. */
  function Join(parts: seq<string>, sep: string): (r: string)
    decreases |parts|
  {
    if parts == [] then ""
    else if |parts| == 1 then parts[0]
    else parts[0] + sep + Join(parts[1..], sep)
  }

  /** Splitting and joining again with the same separator gives the string back. */
  lemma {:induction false} JoinSplit(s: string, sep: string)
    requires sep != []
    ensures Join(Split(s, sep), sep) == s
    decreases |s|
  {
    var k := FindFrom(s, sep, 0);
    if k < |s| {
      var rest := s[k + |sep|..];
      var tail := Split(rest, sep);
      JoinSplit(rest, sep);
      JoinCons(s[..k], tail, sep);
      assert s[k..k + |sep|] == sep;
      assert s == s[..k] + sep + rest by {
        assert s == s[..k] + s[k..k + |sep|] + s[k + |sep|..];
      }
    }
  }

  lemma JoinCons(head: string, tail: seq<string>, sep: string)
    requires tail != []
    ensures Join([head] + tail, sep) == head + sep + Join(tail, sep)
  {
    assert ([head] + tail)[1..] == tail;
  }

  /**
   * A part that `split('__')` hands back unchanged when it is followed by a
   * separator: it holds no `__` and does not end in `_`.
   */
  predicate SeparablePart(p: string) {
    !Contains(p, "__") && (p == [] || p[|p| - 1] != '_')
  }

  /** `split('__')` undoes `'__'.join(parts)` when no part can be confused with the separator. */
  lemma {:induction false} SplitJoin(parts: seq<string>)
    requires |parts| >= 1
    requires forall i :: 0 <= i < |parts| - 1 ==> SeparablePart(parts[i])
    requires !Contains(parts[|parts| - 1], "__")
    ensures Split(Join(parts, "__"), "__") == parts
    decreases |parts|
  {
    var s := Join(parts, "__");
    var p0 := parts[0];
    if |parts| == 1 {
      var k := FindFrom(s, "__", 0);
      if k < |s| {
        assert false;
      }
    } else {
      var r := Join(parts[1..], "__");
      assert s == p0 + "__" + r;
      assert SeparablePart(p0);
      var k := FindFrom(s, "__", 0);
      assert OccursAt(s, "__", |p0|) by {
        assert s[|p0|..|p0| + 2] == "__";
      }
      assert k <= |p0|;
      if k < |p0| {
        assert s[k] == '_' && s[k + 1] == '_' by {
          assert s[k..k + 2] == "__";
        }
        if k + 2 <= |p0| {
          assert p0[k..k + 2] == s[k..k + 2];
          assert OccursAt(p0, "__", k);
          assert false;
        } else {
          assert false;
        }
      }
      assert k == |p0|;
      assert s[..k] == p0;
      assert s[k + 2..] == r;
      SplitJoin(parts[1..]);
      assert Split(s, "__") == [p0] + parts[1..];
    }
  }

  /** Python's `str.lower` on one character, for the ASCII letters. */
  function LowerChar(c: char): char {
    if 'A' <= c <= 'Z' then (c as int - 'A' as int + 'a' as int) as char else c
  }

  /** No ASCII capital letter in `s`. */
  predicate IsLower(s: string) {
    forall i :: 0 <= i < |s| ==> !('A' <= s[i] <= 'Z')
  }

  /** Python's `s.lower()`, for the ASCII letters. */
  function Lower(s: string): (r: string)
    ensures |r| == |s|
    ensures forall i :: 0 <= i < |s| ==> r[i] == LowerChar(s[i])
    ensures IsLower(r)
  {
    if s == [] then [] else [LowerChar(s[0])] + Lower(s[1..])
  }

  /** Python's `str.isspace` on one character. */
  predicate IsSpace(c: char) {
    var n := c as int;
    || 9 <= n <= 13 || 28 <= n <= 32 || n == 0x85 || n == 0xA0 || n == 0x1680
    || 0x2000 <= n <= 0x200A || n == 0x2028 || n == 0x2029 || n == 0x202F
    || n == 0x205F || n == 0x3000
  }

  predicate AllSpace(s: string) {
    forall i :: 0 <= i < |s| ==> IsSpace(s[i])
  }

  /** `s` with its leading whitespace removed. */
  function StripStart(s: string): (r: string)
    ensures |r| <= |s| && r == s[|s| - |r|..]
    ensures AllSpace(s[..|s| - |r|])
    ensures r == [] || !IsSpace(r[0])
  {
    if s != [] && IsSpace(s[0]) then
      var r := StripStart(s[1..]);
      assert s[..|s| - |r|] == [s[0]] + s[1..][..|s| - 1 - |r|];
      r
    else s
  }

  /** `s` with its trailing whitespace removed. */
  function StripEnd(s: string): (r: string)
    ensures |r| <= |s| && r == s[..|r|]
    ensures AllSpace(s[|r|..])
    ensures r == [] || !IsSpace(r[|r| - 1])
  {
    if s != [] && IsSpace(s[|s| - 1]) then
      var r := StripEnd(s[..|s| - 1]);
      assert s[|r|..] == s[..|s| - 1][|r|..] + [s[|s| - 1]];
      r
    else s
  }

  /** Python's `s.strip()`: what is left is empty exactly for an all-whitespace string. */
  function Strip(s: string): (r: string)
    ensures r == [] <==> AllSpace(s)
    ensures r != [] ==> !IsSpace(r[0]) && !IsSpace(r[|r| - 1])
  {
    var t := StripStart(s);
    var r := StripEnd(t);
    assert r == [] ==> t == [];
    assert r == [] ==> s[..|s| - |t|] == s;
    assert r != [] ==> r[0] == t[0];
    r
  }

  /** `strip` keeps a string that neither starts nor ends in whitespace, and drops the newline after it. */
  lemma StripPlain(s: string)
    requires s != [] && !IsSpace(s[0]) && !IsSpace(s[|s| - 1])
    ensures Strip(s) == s && Strip(s + "\n") == s
  {
    var t := s + "\n";
    assert t[0] == s[0];
    assert StripStart(t) == t;
    assert t[..|t| - 1] == s;
    assert StripEnd(t) == StripEnd(s);
  }

  /** The concatenation of the strings in `parts`. */
  function Concat(parts: seq<string>): (r: string)
    decreases |parts|
  {
    if parts == [] then "" else parts[0] + Concat(parts[1..])
  }

  /**
   * The lines `readlines` returns for `text`: each ends in its newline,
   * except a last line that has none.
   */
  function Readlines(text: string): (lines: seq<string>)
    ensures forall i :: 0 <= i < |lines| ==> lines[i] != []
    decreases |text|
  {
    if text == [] then []
    else
      var k := FindFrom(text, "\n", 0);
      if k == |text| then [text] else [text[..k + 1]] + Readlines(text[k + 1..])
  }

  /** `readlines` loses nothing and duplicates nothing: its lines put together are the text. */
  lemma {:induction false} ReadlinesConcat(text: string)
    ensures Concat(Readlines(text)) == text
    decreases |text|
  {
    if text != [] {
      var k := FindFrom(text, "\n", 0);
      if k == |text| {
        assert Concat([text]) == text + Concat([]);
      } else {
        var rest := Readlines(text[k + 1..]);
        ReadlinesConcat(text[k + 1..]);
        assert Readlines(text) == [text[..k + 1]] + rest;
        assert ([text[..k + 1]] + rest)[1..] == rest;
        assert text == text[..k + 1] + text[k + 1..];
      }
    }
  }

  /** A text with no newline before its last character is one line. */
  lemma ReadlinesSingle(text: string)
    requires text != [] && forall i :: 0 <= i < |text| - 1 ==> text[i] != '\n'
    ensures Readlines(text) == [text]
  {
    var k := FindFrom(text, "\n", 0);
    assert k < |text| ==> text[k..k + 1][0] == text[k];
    if k == |text| - 1 {
      assert text[..k + 1] == text;
      assert text[k + 1..] == [];
    }
  }

  /** Every line but the last ends in a newline, and no line holds a newline before its end. */
  lemma {:induction false} ReadlinesShape(text: string, i: nat)
    requires i < |Readlines(text)|
    ensures var line := Readlines(text)[i];
      (i < |Readlines(text)| - 1 ==> line[|line| - 1] == '\n')
      && forall j :: 0 <= j < |line| - 1 ==> line[j] != '\n'
    decreases |text|
  {
    var k := FindFrom(text, "\n", 0);
    assert OccursAt(text, "\n", k) ==> text[k] == '\n' by {
      if OccursAt(text, "\n", k) {
        assert text[k..k + 1] == "\n";
      }
    }
    forall j: nat | j < k ensures text[j] != '\n' {
      if text[j] == '\n' {
        assert text[j..j + 1] == "\n";
        assert OccursAt(text, "\n", j);
      }
    }
    if k < |text| && i > 0 {
      var rest := Readlines(text[k + 1..]);
      assert Readlines(text) == [text[..k + 1]] + rest;
      assert Readlines(text)[i] == rest[i - 1];
      ReadlinesShape(text[k + 1..], i - 1);
    }
  }
}
