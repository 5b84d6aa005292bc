/** The parameter extraction of `check_fr`: Python's `str.find` and slicing exactly as the
    source uses them, `cmd[idx+1 : cmd.find(' ', idx)]`. */
module Gcode {
  import opened Wrappers

  /** The first index at or after `i` holding `c`, or -1. */
  function FindFrom(s: string, c: char, i: nat): (r: int)
    ensures r == -1 || (i <= r < |s| && s[r] == c)
    ensures r == -1 ==> forall j :: i <= j < |s| ==> s[j] != c
    ensures r != -1 ==> forall j :: i <= j < r ==> s[j] != c
    decreases |s| - i
  {
    if i >= |s| then -1 else if s[i] == c then i else FindFrom(s, c, i + 1)
  }

  /** Python `s.find(c, start)` for a one-character `c`: a negative start counts from the end. */
  function PyFind(s: string, c: char, start: int): (r: int)
    ensures r == -1 || (0 <= r < |s| && s[r] == c)
  {
    var from := if start >= 0 then start else if start + |s| >= 0 then start + |s| else 0;
    FindFrom(s, c, from)
  }

  /** Python index normalisation for a slice bound. */
  function SliceBound(b: int, n: nat): (k: nat)
    ensures k <= n
  {
    if b < 0 then (if b + n < 0 then 0 else b + n) else if b > n then n else b
  }

  /** Python `s[a:b]`. */
  function PySlice(s: string, a: int, b: int): (r: string)
    ensures 0 <= a <= b <= |s| ==> r == s[a..b]
    ensures 0 <= a < |s| && b == -1 ==> r == s[a..|s| - 1]
    ensures a == |s| && b == -1 ==> r == ""
  {
    var lo := SliceBound(a, |s|);
    var hi := SliceBound(b, |s|);
    if lo >= hi then "" else s[lo..hi]
  }

  /** The text `float()` receives for parameter `letter` of `cmd`. */
  function ParamText(cmd: string, letter: char): (r: string)
    ensures |r| <= |cmd|
    ensures letter != ' ' && PyFind(cmd, letter, 0) != -1 ==> ' ' !in r
  {
    var idx := PyFind(cmd, letter, 0);
    var idxEnd := PyFind(cmd, ' ', idx);
    PySlice(cmd, idx + 1, idxEnd)
  }

  /** The motion commands whose `F` parameter is tracked. */
  predicate IsMove(gcode: Option<string>) {
    gcode.Some? && gcode.value in ["G0", "G1", "G2", "G3"]
  }

  /** The feedrate-percentage command, whose `S` parameter is tracked. */
  predicate IsFeedratePercent(gcode: Option<string>) {
    gcode == Some("M220")
  }

  /** The first occurrence of `letter` is the one right after `pre`. */
  lemma FindsFirst(pre: string, letter: char, post: string)
    requires letter !in pre
    ensures PyFind(pre + [letter] + post, letter, 0) == |pre|
  {
    var s := pre + [letter] + post;
    var r := PyFind(s, letter, 0);
    assert s[|pre|] == letter;
  }

  /** A parameter followed by a space is read whole. */
  lemma {:induction false} ParamBeforeSpace(pre: string, letter: char, text: string, rest: string)
    requires letter !in pre && letter != ' ' && ' ' !in text
    ensures ParamText(pre + [letter] + text + " " + rest, letter) == text
  {
    var cmd := pre + [letter] + text + " " + rest;
    assert cmd == pre + [letter] + (text + " " + rest);
    FindsFirst(pre, letter, text + " " + rest);
    var idx := |pre|;
    var e := |pre| + 1 + |text|;
    assert cmd[e] == ' ';
    var idxEnd := PyFind(cmd, ' ', idx);
    assert cmd[idx] == letter;
    forall j | idx + 1 <= j < e ensures cmd[j] != ' ' {
      assert cmd[j] == text[j - idx - 1];
    }
    assert idxEnd == e;
    assert cmd[idx + 1 .. e] == text;
  }

  /** A parameter that ends the line loses its last character: `find` returns -1 and the
      slice `[idx+1:-1]` stops one short of the end. */
  lemma {:induction false} ParamAtEnd(pre: string, letter: char, text: string)
    requires letter !in pre && letter != ' ' && ' ' !in text
    ensures ParamText(pre + [letter] + text, letter) == if |text| == 0 then "" else text[..|text| - 1]
  {
    var cmd := pre + [letter] + text;
    FindsFirst(pre, letter, text);
    var idx := |pre|;
    assert cmd[idx] == letter;
    forall j | idx <= j < |cmd| ensures cmd[j] != ' ' {
      if j > idx { assert cmd[j] == text[j - idx - 1]; }
    }
    assert PyFind(cmd, ' ', idx) == -1;
    if |text| > 0 {
      assert cmd[idx + 1 .. |cmd| - 1] == text[..|text| - 1];
    }
  }

  /** A command without the letter gives -1 from the first `find`. */
  lemma NoParam(cmd: string, letter: char)
    requires letter !in cmd
    ensures PyFind(cmd, letter, 0) == -1
  {
  }

  /** The source's own examples: a parameter followed by a space is read whole. */
  lemma ExampleG1Spaced(cmd: string)
    requires cmd == "G1 F1500.1 X5 Y8"
    ensures ParamText(cmd, 'F') == "1500.1"
  {
    assert cmd == "G1 " + ['F'] + "1500.1" + " " + "X5 Y8";
    ParamBeforeSpace("G1 ", 'F', "1500.1", "X5 Y8");
  }

  lemma ExampleG0Spaced(cmd: string)
    requires cmd == "G0 F1200 X1 Y2"
    ensures ParamText(cmd, 'F') == "1200"
  {
    assert cmd == "G0 " + ['F'] + "1200" + " " + "X1 Y2";
    ParamBeforeSpace("G0 ", 'F', "1200", "X1 Y2");
  }

  /** Lines ending in their parameter: "G1 F1200" reads "120" and "M220 S50" reads "5". */
  lemma ExampleG1AtEnd(cmd: string)
    requires cmd == "G1 F1200"
    ensures ParamText(cmd, 'F') == "120"
  {
    assert cmd == "G1 " + ['F'] + "1200";
    ParamAtEnd("G1 ", 'F', "1200");
  }

  lemma ExampleM220AtEnd(cmd: string)
    requires cmd == "M220 S50"
    ensures ParamText(cmd, 'S') == "5"
  {
    assert cmd == "M220 " + ['S'] + "50";
    ParamAtEnd("M220 ", 'S', "50");
  }
}
