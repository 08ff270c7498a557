/**
 * Three small routines of the file/path helpers: the error type's clean-up of
 * runs of spaces in its message, the line counter, and the test that a file
 * is delimited by a separator. File contents are passed as text; opening,
 * `stat`-ing and memory-mapping the file are not modelled.
 */
module FilesNPaths {
  import opened Wrappers

  // ---------------------------------------------------------------------
  // FilesNPathsError: every run of spaces in the message becomes one space
  // ---------------------------------------------------------------------

  /** Two consecutive spaces occur somewhere in `s`. */
  predicate HasDoubleSpace(s: string) {
    exists i :: 0 <= i < |s| - 1 && s[i] == ' ' && s[i + 1] == ' '
  }

  /** `s.find("  ")`: the index of the first two consecutive spaces, or -1. */
  function FindDoubleSpace(s: string): (r: int)
    ensures -1 <= r < |s| - 1 || r == -1
    ensures r >= 0 ==> s[r] == ' ' && s[r + 1] == ' '
    ensures r >= 0 ==> forall i :: 0 <= i < r ==> !(s[i] == ' ' && s[i + 1] == ' ')
    ensures r == -1 <==> !HasDoubleSpace(s)
  {
    if |s| < 2 then -1
    else if s[0] == ' ' && s[1] == ' ' then 0
    else
      var r := FindDoubleSpace(s[1..]);
      assert forall i :: 0 < i < |s| - 1 ==> s[i] == s[1..][i - 1] && s[i + 1] == s[1..][i];
      if r == -1 then -1 else r + 1
  }

  /**
   * `s.replace("  ", " ")`: scanning left to right, each pair of spaces that
   * does not overlap an earlier replaced pair becomes one space.
   */
  function ReplaceDoubleSpaces(s: string): (r: string)
    ensures |r| <= |s|
  {
    if |s| < 2 then s
    else if s[0] == ' ' && s[1] == ' ' then " " + ReplaceDoubleSpaces(s[2..])
    else [s[0]] + ReplaceDoubleSpaces(s[1..])
  }

  /**
   * The message as it is meant to be stored: every space that is followed by
   * another space is dropped, so each maximal run of spaces is left as a
   * single space and every other character stays where it was.
   */
  function Squeeze(s: string): (r: string)
    ensures |r| <= |s|
  {
    if |s| < 2 then s
    else if s[0] == ' ' && s[1] == ' ' then Squeeze(s[1..])
    else [s[0]] + Squeeze(s[1..])
  }

  /** The characters of `s` other than spaces, in order. */
  function NonSpaces(s: string): string {
    if s == [] then []
    else (if s[0] == ' ' then [] else [s[0]]) + NonSpaces(s[1..])
  }

  /** `n` spaces. */
  function Spaces(n: nat): (r: string)
    ensures |r| == n
    ensures n > 0 ==> r[0] == ' ' && r[n - 1] == ' '
  {
    if n == 0 then [] else " " + Spaces(n - 1)
  }

  /** A replacement pass leaves the first character's kind alone. */
  lemma {:induction false} ReplaceFirst(s: string)
    ensures |ReplaceDoubleSpaces(s)| == 0 <==> |s| == 0
    ensures s != [] ==> ReplaceDoubleSpaces(s)[0] == s[0]
  {
  }

  /** Squeezing leaves the first character alone. */
  lemma {:induction false} SqueezeFirst(s: string)
    ensures |Squeeze(s)| == 0 <==> |s| == 0
    ensures s != [] ==> Squeeze(s)[0] == s[0]
  {
    if |s| >= 2 && s[0] == ' ' && s[1] == ' ' {
      SqueezeFirst(s[1..]);
    }
  }

  /** Squeezing one character in front of `x`, when `x` is not empty. */
  lemma {:induction false} SqueezeCons(c: char, x: string)
    requires x != []
    ensures Squeeze([c] + x) == if c == ' ' && x[0] == ' ' then Squeeze(x) else [c] + Squeeze(x)
  {
    assert ([c] + x)[1..] == x;
  }

  /** Each pass strictly shortens a message that still holds two consecutive spaces. */
  lemma {:induction false} ReplaceShortens(s: string)
    requires HasDoubleSpace(s)
    ensures |ReplaceDoubleSpaces(s)| < |s|
  {
    var i :| 0 <= i < |s| - 1 && s[i] == ' ' && s[i + 1] == ' ';
    if !(s[0] == ' ' && s[1] == ' ') {
      assert s[1..][i - 1] == ' ' && s[1..][i] == ' ';
      ReplaceShortens(s[1..]);
    }
  }

  /** A pass does not change what the message squeezes to: the loop's invariant. */
  lemma {:induction false} ReplaceKeepsSqueeze(s: string)
    ensures Squeeze(ReplaceDoubleSpaces(s)) == Squeeze(s)
  {
    if |s| < 2 {
    } else if s[0] == ' ' && s[1] == ' ' {
      var t := s[2..];
      ReplaceKeepsSqueeze(t);
      assert s[1..] == [' '] + t;
      if t == [] {
      } else {
        ReplaceFirst(t);
        SqueezeCons(' ', ReplaceDoubleSpaces(t));
        SqueezeCons(' ', t);
      }
    } else {
      var t := s[1..];
      ReplaceKeepsSqueeze(t);
      assert s == [s[0]] + t;
      ReplaceFirst(t);
      SqueezeCons(s[0], ReplaceDoubleSpaces(t));
    }
  }

  /** The squeezed message holds no two consecutive spaces. */
  lemma {:induction false} SqueezeHasNoDoubleSpace(s: string)
    ensures !HasDoubleSpace(Squeeze(s))
  {
    if |s| < 2 {
    } else if s[0] == ' ' && s[1] == ' ' {
      SqueezeHasNoDoubleSpace(s[1..]);
    } else {
      var t := Squeeze(s[1..]);
      SqueezeHasNoDoubleSpace(s[1..]);
      SqueezeFirst(s[1..]);
      var r := [s[0]] + t;
      forall i | 0 <= i < |r| - 1
        ensures !(r[i] == ' ' && r[i + 1] == ' ')
      {
        if i > 0 {
          assert r[i] == t[i - 1] && r[i + 1] == t[i];
        }
      }
    }
  }

  /** A message with no two consecutive spaces is stored as it is. */
  lemma {:induction false} SqueezeWithoutDoubleSpace(s: string)
    requires !HasDoubleSpace(s)
    ensures Squeeze(s) == s
  {
    if |s| >= 2 {
      assert !(s[0] == ' ' && s[1] == ' ');
      assert !HasDoubleSpace(s[1..]) by {
        forall i | 0 <= i < |s[1..]| - 1
          ensures !(s[1..][i] == ' ' && s[1..][i + 1] == ' ')
        {
          assert s[1..][i] == s[i + 1] && s[1..][i + 1] == s[i + 2];
        }
      }
      SqueezeWithoutDoubleSpace(s[1..]);
      assert s == [s[0]] + s[1..];
    }
  }

  /** Squeezing twice is squeezing once. */
  lemma {:induction false} SqueezeIdempotent(s: string)
    ensures Squeeze(Squeeze(s)) == Squeeze(s)
  {
    SqueezeHasNoDoubleSpace(s);
    SqueezeWithoutDoubleSpace(Squeeze(s));
  }

  /** Every character other than a space is kept, in order. */
  lemma {:induction false} SqueezeKeepsNonSpaces(s: string)
    ensures NonSpaces(Squeeze(s)) == NonSpaces(s)
  {
    if |s| >= 2 {
      SqueezeKeepsNonSpaces(s[1..]);
      if !(s[0] == ' ' && s[1] == ' ') {
        assert ([s[0]] + Squeeze(s[1..]))[1..] == Squeeze(s[1..]);
      }
    }
  }

  /** One character in front of `t` survives or goes the same way whatever follows `t`. */
  lemma {:induction false} SqueezeConsConcat(c: char, t: string, y: string)
    requires t != []
    requires Squeeze(t + y) == Squeeze(t) + Squeeze(y)
    ensures Squeeze([c] + t + y) == Squeeze([c] + t) + Squeeze(y)
  {
    var ty := t + y;
    assert ty[0] == t[0];
    assert [c] + t + y == [c] + ty;
    SqueezeCons(c, ty);
    SqueezeCons(c, t);
    if !(c == ' ' && t[0] == ' ') {
      assert [c] + (Squeeze(t) + Squeeze(y)) == ([c] + Squeeze(t)) + Squeeze(y);
    }
  }

  /** Two pieces that do not meet in two spaces squeeze separately. */
  lemma {:induction false} SqueezeConcat(x: string, y: string)
    requires !(x != [] && y != [] && x[|x| - 1] == ' ' && y[0] == ' ')
    ensures Squeeze(x + y) == Squeeze(x) + Squeeze(y)
  {
    if x == [] {
      assert x + y == y;
    } else if y == [] {
      assert x + y == x;
    } else if |x| == 1 {
      assert x + y == [x[0]] + y;
      SqueezeCons(x[0], y);
    } else {
      var c, t := x[0], x[1..];
      assert x == [c] + t;
      SqueezeConcat(t, y);
      SqueezeConsConcat(c, t, y);
    }
  }

  /** A run of spaces squeezes to one space. */
  lemma {:induction false} SqueezeSpaces(n: nat)
    requires n >= 1
    ensures Squeeze(Spaces(n)) == " "
  {
    if n > 1 {
      SqueezeSpaces(n - 1);
      SqueezeCons(' ', Spaces(n - 1));
    }
  }

  /**
   * A maximal run of spaces between two pieces of text is replaced by a
   * single space, and the text on either side is squeezed on its own.
   */
  lemma {:induction false} SqueezeRun(a: string, n: nat, b: string)
    requires n >= 1
    requires a == [] || a[|a| - 1] != ' '
    requires b == [] || b[0] != ' '
    ensures Squeeze(a + Spaces(n) + b) == Squeeze(a) + " " + Squeeze(b)
  {
    var sp := Spaces(n);
    var tail := sp + b;
    assert Squeeze(tail) == " " + Squeeze(b) by {
      SqueezeSpaces(n);
      assert sp[n - 1] == ' ';
      SqueezeConcat(sp, b);
    }
    assert Squeeze(a + tail) == Squeeze(a) + Squeeze(tail) by {
      assert tail[0] == ' ';
      SqueezeConcat(a, tail);
    }
    assert a + sp + b == a + tail;
    assert Squeeze(a) + (" " + Squeeze(b)) == Squeeze(a) + " " + Squeeze(b);
  }

  /** The error raised by the file/path helpers, holding its message. */
  class FilesNPathsError {
    var e: string

    /**
     * The message is rewritten by `replace("  ", " ")` for as long as
     * `find("  ")` reports two consecutive spaces, then stored.
     */
    constructor(message: string)
      ensures e == Squeeze(message)
      ensures !HasDoubleSpace(e)
      ensures NonSpaces(e) == NonSpaces(message)
    {
      var m := message;
      while true
        invariant Squeeze(m) == Squeeze(message)
        decreases |m|
      {
        if FindDoubleSpace(m) > -1 {
          ReplaceShortens(m);
          ReplaceKeepsSqueeze(m);
          m := ReplaceDoubleSpaces(m);
        } else {
          break;
        }
      }
      SqueezeWithoutDoubleSpace(m);
      SqueezeKeepsNonSpaces(message);
      e := m;
    }
  }

  // ---------------------------------------------------------------------
  // Lines, as `readline` and `readlines` return them
  // ---------------------------------------------------------------------

  /** The length of the first line of `s`: up to and including its first newline. */
  function LineLength(s: string): (k: nat)
    requires s != []
    ensures 1 <= k <= |s|
    ensures k < |s| ==> s[k - 1] == '\n'
  {
    if s[0] == '\n' || |s| == 1 then 1 else 1 + LineLength(s[1..])
  }

  /** The first line holds no newline before its last character. */
  lemma {:induction false} FirstLineHasOneNewline(s: string)
    requires s != []
    ensures forall i :: 0 <= i < LineLength(s) - 1 ==> s[i] != '\n'
  {
    if !(s[0] == '\n' || |s| == 1) {
      FirstLineHasOneNewline(s[1..]);
      assert forall i :: 1 <= i < |s| ==> s[i] == s[1..][i - 1];
    }
  }

  /**
   * The lines of a text: each ends with its newline, except a last line
   * that the text ends without one. Only '\n' ends a line.
   */
  function Lines(s: string): (r: seq<string>)
    ensures |r| <= |s|
    ensures r == [] <==> s == []
    decreases |s|
  {
    if s == [] then []
    else
      var k := LineLength(s);
      [s[..k]] + Lines(s[k..])
  }

  /** The number of newline characters in `s`. */
  function NewlineCount(s: string): (n: nat)
    ensures n <= |s|
  {
    if s == [] then 0 else (if s[0] == '\n' then 1 else 0) + NewlineCount(s[1..])
  }

  /** Text has no newline exactly when it counts none. */
  lemma {:induction false} NewlineCountZero(s: string)
    ensures NewlineCount(s) == 0 <==> '\n' !in s
  {
    if s != [] {
      NewlineCountZero(s[1..]);
      assert s == [s[0]] + s[1..];
    }
  }

  lemma {:induction false} NewlineCountConcat(x: string, y: string)
    ensures NewlineCount(x + y) == NewlineCount(x) + NewlineCount(y)
  {
    if x == [] {
      assert x + y == y;
    } else {
      NewlineCountConcat(x[1..], y);
      assert (x + y)[1..] == x[1..] + y;
    }
  }

  /** A first line holds exactly one newline when more text follows it. */
  lemma {:induction false} FirstLineNewlines(s: string)
    requires s != []
    ensures NewlineCount(s[..LineLength(s)]) == if s[LineLength(s) - 1] == '\n' then 1 else 0
  {
    var k := LineLength(s);
    if k > 1 {
      assert s[..k][1..] == s[1..][..k - 1];
      FirstLineNewlines(s[1..]);
    }
  }

  /**
   * There is one line per newline, and one more when the text does not end
   * with a newline.
   */
  lemma {:induction false} LinesCount(s: string)
    ensures |Lines(s)| == NewlineCount(s) + (if s != [] && s[|s| - 1] != '\n' then 1 else 0)
  {
    if s != [] {
      var k := LineLength(s);
      var first, rest := s[..k], s[k..];
      assert s == first + rest;
      assert |Lines(s)| == 1 + |Lines(rest)|;
      LinesCount(rest);
      FirstLineNewlines(s);
      NewlineCountConcat(first, rest);
      assert NewlineCount(s) == NewlineCount(first) + NewlineCount(rest);
      if rest == [] {
        assert s[|s| - 1] == s[k - 1];
      } else {
        assert s[|s| - 1] == rest[|rest| - 1] && s[k - 1] == '\n';
      }
    }
  }

  /** Putting the lines back together gives the text; no line is empty. */
  lemma {:induction false} LinesConcat(s: string)
    ensures Concat(Lines(s)) == s
    ensures forall i :: 0 <= i < |Lines(s)| ==> Lines(s)[i] != []
  {
    if s != [] {
      var k := LineLength(s);
      LinesConcat(s[k..]);
      assert s == s[..k] + s[k..];
    }
  }

  /** The lines written one after the other. */
  function Concat(ls: seq<string>): string {
    if ls == [] then [] else ls[0] + Concat(ls[1..])
  }

  /**
   * `readline()` on what is left of the file: the next line, or "" at the
   * end of the file.
   */
  function ReadLine(rest: string): (line: string)
    ensures line == [] <==> rest == []
    ensures rest != [] ==> line == Lines(rest)[0]
  {
    if rest == [] then [] else rest[..LineLength(rest)]
  }

  /**
   * `get_num_lines_in_file`: 0 for an empty file, otherwise one count per
   * `readline()` that returns something. `rest` is the part of the file
   * after the read position.
   */
  method GetNumLinesInFile(content: string) returns (n: nat)
    ensures n == |Lines(content)|
    ensures n == NewlineCount(content) + (if content != [] && content[|content| - 1] != '\n' then 1 else 0)
  {
    LinesCount(content);
    if |content| == 0 {
      return 0;
    }
    n := 0;
    var rest := content;
    while true
      invariant n + |Lines(rest)| == |Lines(content)|
      decreases |rest|
    {
      var line := ReadLine(rest);
      if line == [] {
        break;
      }
      n := n + 1;
      rest := rest[|line|..];
    }
  }

  // ---------------------------------------------------------------------
  // is_file_tab_delimited
  // ---------------------------------------------------------------------

  /** `s.lstrip(' ')`. */
  function StripLeft(s: string): (r: string)
    ensures |r| <= |s|
  {
    if s != [] && s[0] == ' ' then StripLeft(s[1..]) else s
  }

  /** `s.rstrip(' ')`. */
  function StripRight(s: string): (r: string)
    ensures |r| <= |s|
  {
    if s != [] && s[|s| - 1] == ' ' then StripRight(s[..|s| - 1]) else s
  }

  /** `lstrip` removes exactly the leading spaces. */
  lemma {:induction false} StripLeftSpec(s: string)
    ensures StripLeft(s) == s[|s| - |StripLeft(s)|..]
    ensures StripLeft(s) != [] ==> StripLeft(s)[0] != ' '
    ensures forall i :: 0 <= i < |s| - |StripLeft(s)| ==> s[i] == ' '
  {
    if s != [] && s[0] == ' ' {
      StripLeftSpec(s[1..]);
    }
  }

  /** `rstrip` removes exactly the trailing spaces. */
  lemma {:induction false} StripRightSpec(s: string)
    ensures StripRight(s) == s[..|StripRight(s)|]
    ensures StripRight(s) != [] ==> StripRight(s)[|StripRight(s)| - 1] != ' '
    ensures forall i :: |StripRight(s)| <= i < |s| ==> s[i] == ' '
  {
    if s != [] && s[|s| - 1] == ' ' {
      StripRightSpec(s[..|s| - 1]);
    }
  }

  /** `s.strip(' ')`: what is left neither starts nor ends with a space. */
  function Strip(s: string): (r: string)
    ensures |r| <= |s|
    ensures r != [] ==> r[0] != ' ' && r[|r| - 1] != ' '
  {
    var l := StripLeft(s);
    StripLeftSpec(s);
    StripRightSpec(l);
    StripRight(l)
  }

  /**
   * `line.strip(' ').startswith('#')`: a comment line is one whose first
   * character other than a space is `#`.
   */
  predicate IsComment(line: string): (r: bool)
    ensures r <==> StripLeft(line) != [] && StripLeft(line)[0] == '#'
  {
    var l := StripLeft(line);
    StripLeftSpec(line);
    StripRightSpec(l);
    var t := Strip(line);
    assert l != [] ==> t != [] && t[0] == l[0];
    t != [] && t[0] == '#'
  }

  /** `sep` occurs in `s` at index `i`. */
  predicate OccursAt(s: string, sep: string, i: int) {
    0 <= i && i + |sep| <= |s| && s[i..i + |sep|] == sep
  }

  /**
   * The number of occurrences of `sep` that `s.split(sep)` cuts at: found
   * left to right, none overlapping the previous one.
   */
  function Occurrences(s: string, sep: string): (n: nat)
    requires sep != []
    ensures n * |sep| <= |s|
    decreases |s|
  {
    if |s| < |sep| then 0
    else if s[..|sep|] == sep then
      var rest := Occurrences(s[|sep|..], sep);
      assert (1 + rest) * |sep| == |sep| + rest * |sep|;
      1 + rest
    else Occurrences(s[1..], sep)
  }

  /** `len(s.split(sep))`. */
  function FieldCount(s: string, sep: string): (n: nat)
    requires sep != []
    ensures n >= 1
  {
    Occurrences(s, sep) + 1
  }

  /** A line splits into a single field exactly when the separator does not occur in it. */
  lemma {:induction false} SingleFieldIffNoSeparator(s: string, sep: string)
    requires sep != []
    ensures FieldCount(s, sep) == 1 <==> forall i :: !OccursAt(s, sep, i)
  {
    if |s| < |sep| {
    } else if s[..|sep|] == sep {
      assert OccursAt(s, sep, 0);
    } else {
      SingleFieldIffNoSeparator(s[1..], sep);
      forall i | OccursAt(s, sep, i)
        ensures OccursAt(s[1..], sep, i - 1)
      {
        assert i != 0;
        assert s[1..][i - 1..i - 1 + |sep|] == s[i..i + |sep|];
      }
      forall i | OccursAt(s[1..], sep, i)
        ensures OccursAt(s, sep, i + 1)
      {
        assert s[1..][i..i + |sep|] == s[i + 1..i + 1 + |sep|];
      }
    }
  }

  /** The empty string, what `readline()` returns at the end of a file, is one field. */
  lemma {:induction false} EmptyIsOneField(sep: string)
    requires sep != []
    ensures FieldCount("", sep) == 1
  {
  }

  /**
   * The index of the first line that is not a comment, or `|lines|` when
   * every line is one: where the first loop of `is_file_tab_delimited` stops.
   */
  function FirstDataIndex(lines: seq<string>): (k: nat)
    ensures k <= |lines|
    ensures forall i :: 0 <= i < k ==> IsComment(lines[i])
    ensures k < |lines| ==> !IsComment(lines[k])
  {
    if lines == [] || !IsComment(lines[0]) then 0 else 1 + FirstDataIndex(lines[1..])
  }

  /** Every line splits into as many fields as the first. */
  predicate SameFieldCounts(lines: seq<string>, sep: string): (r: bool)
    requires sep != []
    ensures r <==> forall i, j :: 0 <= i < |lines| && 0 <= j < |lines| ==> FieldCount(lines[i], sep) == FieldCount(lines[j], sep)
  {
    forall i :: 0 <= i < |lines| ==> FieldCount(lines[i], sep) == FieldCount(lines[0], sep)
  }

  /** The field counts of the lines, as the set the source builds. */
  function FieldCounts(lines: seq<string>, sep: string): (r: set<nat>)
    requires sep != []
    ensures forall i :: 0 <= i < |lines| ==> FieldCount(lines[i], sep) in r
    ensures r == {} <==> lines == []
  {
    var counts := set i | 0 <= i < |lines| :: FieldCount(lines[i], sep);
    assert lines != [] ==> FieldCount(lines[0], sep) in counts;
    counts
  }

  /** The set of field counts has one element exactly when there are lines and they agree. */
  lemma {:induction false} OneFieldCount(lines: seq<string>, sep: string)
    requires sep != []
    ensures |FieldCounts(lines, sep)| == 1 <==> lines != [] && SameFieldCounts(lines, sep)
  {
    var counts := FieldCounts(lines, sep);
    if lines == [] {
      assert counts == {};
    } else {
      var c := FieldCount(lines[0], sep);
      assert c in counts;
      if SameFieldCounts(lines, sep) {
        assert counts == {c};
      }
      if |counts| == 1 {
        assert |counts - {c}| == 0;
        assert counts - {c} == {};
        forall i | 0 <= i < |lines|
          ensures FieldCount(lines[i], sep) == c
        {
          assert FieldCount(lines[i], sep) in counts;
        }
      }
    }
  }

  /**
   * Why a file is not accepted as delimited. `EmptySeparator` is the
   * `ValueError` that splitting on an empty string raises.
   */
  datatype TabError = EmptySeparator | NoSeparator | UnequalFieldCounts

  /**
   * `is_file_tab_delimited` on the file's text. It skips the leading comment
   * lines; the first other line, with its spaces stripped, must split into
   * more than one field (at the end of the file `readline()` gives "", which
   * does not); then every line of the file, comment lines included, must
   * split into the same number of fields.
   */
  method IsFileTabDelimited(content: string, separator: string) returns (r: Result<bool, TabError>)
    ensures r.Ok? ==> r.value
    ensures separator == [] <==> r == Err(EmptySeparator)
    ensures separator != [] ==>
      var lines := Lines(content);
      var k := FirstDataIndex(lines);
      var first := if k < |lines| then Strip(lines[k]) else "";
      && (r == Err(NoSeparator) <==> FieldCount(first, separator) == 1)
      && (r.Ok? <==> FieldCount(first, separator) > 1 && SameFieldCounts(lines, separator))
  {
    var lines := Lines(content);
    var i := 0;
    var line: string;
    while true
      invariant 0 <= i <= |lines|
      invariant forall j :: 0 <= j < i ==> IsComment(lines[j])
      decreases |lines| - i
    {
      line := if i < |lines| then lines[i] else "";
      line := Strip(line);
      if line != [] && line[0] == '#' {
        i := i + 1;
      } else {
        break;
      }
    }
    assert i == FirstDataIndex(lines);
    if separator == [] {
      return Err(EmptySeparator);
    }
    if FieldCount(line, separator) == 1 {
      return Err(NoSeparator);
    }
    OneFieldCount(lines, separator);
    if |FieldCounts(lines, separator)| != 1 {
      return Err(UnequalFieldCounts);
    }
    return Ok(true);
  }
}
