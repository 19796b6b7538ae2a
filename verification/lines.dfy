/** Strings as text: prefixes, suffixes, and text made of newline-terminated lines. */
module Lines {
  import opened Wrappers

  /** `s` starts with `prefix`. */
  predicate IsPrefix(prefix: string, s: string)
  {
    |prefix| <= |s| && s[..|prefix|] == prefix
  }

  /** `s` ends with `suffix` (Python's `str.endswith`). */
  predicate IsSuffix(suffix: string, s: string)
  {
    |suffix| <= |s| && s[|s| - |suffix|..] == suffix
  }

  /** `s` is a single line: it holds no line break. */
  predicate NoNewline(s: string)
  {
    '\n' !in s
  }

  /** Every one of `lines` is a single line. */
  predicate AllNoNewline(lines: seq<string>)
  {
    forall i :: 0 <= i < |lines| ==> NoNewline(lines[i])
  }

  /** The position of the first occurrence of `c` in `s`, if any. */
  function FirstIndex(s: string, c: char): (r: Option<nat>)
    ensures r.None? <==> c !in s
    ensures r.Some? ==> r.value < |s| && s[r.value] == c && c !in s[..r.value]
  {
    if s == [] then None
    else if s[0] == c then Some(0)
    else
      match FirstIndex(s[1..], c)
      case None => None
      case Some(i) =>
        assert s[..i + 1] == [s[0]] + s[1..][..i];
        Some(i + 1)
  }

  /** The first `c` of `a + [c] + b` is the one after `a` when `a` has none. */
  lemma FirstIndexAfter(a: string, c: char, b: string)
    requires c !in a
    ensures FirstIndex(a + [c] + b, c) == Some(|a|)
  {
    var s := a + [c] + b;
    assert s[|a|] == c;
    assert s[..|a|] == a;
  }

  /** The text of `lines`, each one terminated by a line break. */
  function Join(lines: seq<string>): (r: string)
  {
    if lines == [] then [] else lines[0] + "\n" + Join(lines[1..])
  }

  /** Text is joined piecewise. */
  lemma {:induction false} JoinAppend(a: seq<string>, b: seq<string>)
    ensures Join(a + b) == Join(a) + Join(b)
    decreases |a|
  {
    if a == [] {
      assert a + b == b;
    } else {
      assert (a + b)[1..] == a[1..] + b;
      JoinAppend(a[1..], b);
    }
  }

  /** Cuts text into its newline-terminated lines; None when the last line is unterminated. */
  function Split(text: string): (r: Option<seq<string>>)
    ensures r.Some? <==> text == [] || text[|text| - 1] == '\n'
    ensures r.Some? ==> Join(r.value) == text
    ensures r.Some? ==> AllNoNewline(r.value)
    decreases |text|
  {
    if text == [] then Some([])
    else
      match FirstIndex(text, '\n')
      case None => None
      case Some(i) =>
        var head := text[..i];
        var tail := text[i + 1..];
        assert text == head + "\n" + tail;
        match Split(tail)
        case None => None
        case Some(rest) =>
          assert ([head] + rest)[1..] == rest;
          Some([head] + rest)
  }

  /** Split undoes Join when no line holds a line break. */
  lemma {:induction false} SplitJoin(lines: seq<string>)
    requires AllNoNewline(lines)
    ensures Split(Join(lines)) == Some(lines)
    decreases |lines|
  {
    if lines != [] {
      var tail := Join(lines[1..]);
      FirstIndexAfter(lines[0], '\n', tail);
      assert Join(lines) == lines[0] + "\n" + tail;
      var text := Join(lines);
      assert text[..|lines[0]|] == lines[0];
      assert text[|lines[0]| + 1..] == tail;
      SplitJoin(lines[1..]);
      assert [lines[0]] + lines[1..] == lines;
    }
  }
}
