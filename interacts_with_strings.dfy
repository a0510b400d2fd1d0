/**
 * The prompt theme's string helpers: the width of the longest line, padding
 * that ignores escape sequences, and the stripping of ANSI colour codes.
 * Display width (`mb_strwidth`) and the Symfony style-tag stripping are
 * parameters of the terminal model; the ANSI stripping is concrete.
 */
module InteractsWithStrings {
  import opened Wrappers

  const Esc: char := 27 as char

  /**
   * What the renderer knows about the terminal: the display width of a
   * string, the removal of Symfony style tags, and the theme's minimum width.
   */
  datatype Display = Display(width: string -> nat, stripTags: string -> string, minWidth: int)

  /** Style-tag stripping only ever touches text that holds a `<`. */
  ghost predicate TagsNeedAngle(stripTags: string -> string) {
    forall t :: '<' !in t ==> stripTags(t) == t
  }

  // ---------------------------------------------------------------------
  // ANSI escape sequences
  // ---------------------------------------------------------------------

  /** The position of the first `c` in `s`. */
  function Find(s: string, c: char): (r: Option<nat>)
    ensures r.None? <==> c !in s
    ensures r.Some? ==> r.value < |s| && s[r.value] == c && c !in s[..r.value]
  {
    if |s| == 0 then None
    else if s[0] == c then Some(0)
    else match Find(s[1..], c)
      case None => None
      case Some(k) => assert s[..k + 1] == [s[0]] + s[1..][..k]; Some(k + 1)
  }

  /**
   * Every match of `ESC [^m]* m`, scanned from the left, replaced by nothing:
   * an ESC followed later by an `m` is deleted up to and including the first
   * such `m`; an ESC with no `m` after it leaves the rest as it is.
   */
  function StripAnsi(s: string): string
    decreases |s|
  {
    if |s| == 0 then ""
    else if s[0] != Esc then [s[0]] + StripAnsi(s[1..])
    else match Find(s[1..], 'm')
      case None => s
      case Some(k) => StripAnsi(s[k + 2..])
  }

  /** No ESC is followed, anywhere later, by an `m`: nothing left to strip. */
  predicate NoAnsiRun(s: string) {
    forall i, j :: 0 <= i < j < |s| && s[i] == Esc ==> s[j] != 'm'
  }

  /** Text with no ESC-then-`m` is returned unchanged. */
  lemma {:induction false} StripAnsiNoRun(s: string)
    requires NoAnsiRun(s)
    ensures StripAnsi(s) == s
    decreases |s|
  {
    if |s| > 0 {
      if s[0] != Esc {
        forall i, j | 0 <= i < j < |s[1..]| && s[1..][i] == Esc ensures s[1..][j] != 'm' {
          assert s[i + 1] == Esc;
        }
        StripAnsiNoRun(s[1..]);
      } else {
        forall j | 0 <= j < |s[1..]| ensures s[1..][j] != 'm' {
          assert s[j + 1] == s[1..][j];
        }
      }
    }
  }

  /** In particular text without an ESC is returned unchanged. */
  lemma StripAnsiNoEsc(s: string)
    requires Esc !in s
    ensures StripAnsi(s) == s
  {
    StripAnsiNoRun(s);
  }

  /** After stripping, no ESC is followed by an `m`, and nothing got longer. */
  lemma {:induction false} StripAnsiLeavesNoRun(s: string)
    ensures NoAnsiRun(StripAnsi(s))
    ensures |StripAnsi(s)| <= |s|
    decreases |s|
  {
    if |s| > 0 {
      if s[0] != Esc {
        StripAnsiLeavesNoRun(s[1..]);
        var t := StripAnsi(s[1..]);
        var r := [s[0]] + t;
        forall i, j | 0 <= i < j < |r| && r[i] == Esc ensures r[j] != 'm' {
          assert t[i - 1] == Esc;
        }
      } else {
        match Find(s[1..], 'm')
        case None =>
          forall i, j | 0 <= i < j < |s| && s[i] == Esc ensures s[j] != 'm' {
            assert s[j] == s[1..][j - 1];
          }
        case Some(k) =>
          StripAnsiLeavesNoRun(s[k + 2..]);
      }
    }
  }

  /** Stripping twice is stripping once. */
  lemma StripAnsiIdempotent(s: string)
    ensures StripAnsi(StripAnsi(s)) == StripAnsi(s)
  {
    StripAnsiLeavesNoRun(s);
    StripAnsiNoRun(StripAnsi(s));
  }

  /**
   * One run is deleted: text with no ESC, then an ESC, then characters other
   * than `m`, then `m`, loses exactly that run.
   */
  lemma {:induction false} StripAnsiDeletesRun(a: string, b: string, c: string)
    requires Esc !in a && 'm' !in b
    ensures StripAnsi(a + [Esc] + b + ['m'] + c) == a + StripAnsi(c)
    decreases |a|
  {
    var s := a + [Esc] + b + ['m'] + c;
    if |a| == 0 {
      assert s == [Esc] + b + ['m'] + c;
      assert s[1..] == b + ['m'] + c;
      assert s[1..][|b|] == 'm';
      assert s[1..][..|b|] == b;
      assert s[|b| + 2..] == c;
    } else {
      assert s[1..] == a[1..] + [Esc] + b + ['m'] + c;
      StripAnsiDeletesRun(a[1..], b, c);
      assert [a[0]] + a[1..] == a;
    }
  }

  /** `stripEscapeSequences`: ANSI codes first, then the style tags. */
  function StripEscapeSequences(text: string, display: Display): string {
    display.stripTags(StripAnsi(text))
  }

  /** Text with no ESC and no `<` comes back unchanged. */
  lemma StripEscapeSequencesPlain(text: string, display: Display)
    requires TagsNeedAngle(display.stripTags)
    requires Esc !in text && '<' !in text
    ensures StripEscapeSequences(text, display) == text
  {
    StripAnsiNoEsc(text);
  }

  /** The display width of the visible text. */
  function VisibleWidth(text: string, display: Display): nat {
    display.width(StripEscapeSequences(text, display))
  }

  // ---------------------------------------------------------------------
  // pad
  // ---------------------------------------------------------------------

  /** `str_repeat(char, n)`: `n` copies of `ch` back to back. */
  function Repeat(ch: string, n: nat): (r: string)
    ensures |r| == n * |ch|
    ensures n > 0 ==> r[..|ch|] == ch
    ensures forall k :: 0 <= k < |r| - |ch| ==> r[k + |ch|] == r[k]
  {
    if n == 0 then ""
    else
      var rest := Repeat(ch, n - 1);
      assert forall k :: 0 <= k < |rest| ==> (ch + rest)[k + |ch|] == rest[k];
      ch + rest
  }

  function Max(a: int, b: int): int {
    if a >= b then a else b
  }

  /**
   * `pad(text, length, char)`: the text itself, then as many copies of `ch`
   * as the visible width falls short of `length`.
   */
  function Pad(text: string, length: int, ch: string, display: Display): (r: string)
    ensures |r| == |text| + Max(0, length - VisibleWidth(text, display)) * |ch|
    ensures r[..|text|] == text
    ensures r[|text|..] == Repeat(ch, Max(0, length - VisibleWidth(text, display)))
  {
    text + Repeat(ch, Max(0, length - VisibleWidth(text, display)))
  }

  /** Text already as wide as `length` is not padded. */
  lemma PadWideEnough(text: string, length: int, ch: string, display: Display)
    requires VisibleWidth(text, display) >= length
    ensures Pad(text, length, ch, display) == text
  {
  }

  /** Padding with one-column spaces over plain text reaches exactly `length`. */
  lemma PadReachesLength(text: string, length: int, display: Display)
    requires VisibleWidth(text, display) == |text|
    ensures |Pad(text, length, " ", display)| == Max(|text|, length)
  {
  }

  // ---------------------------------------------------------------------
  // longest
  // ---------------------------------------------------------------------

  /** The largest visible width plus padding over a non-empty list of lines. */
  function MaxLineWidth(lines: seq<string>, padding: int, display: Display): (r: int)
    requires |lines| > 0
    ensures forall i :: 0 <= i < |lines| ==> r >= VisibleWidth(lines[i], display) + padding
    ensures exists i :: 0 <= i < |lines| && r == VisibleWidth(lines[i], display) + padding
  {
    var w := VisibleWidth(lines[0], display) + padding;
    if |lines| == 1 then w
    else
      var rest := MaxLineWidth(lines[1..], padding, display);
      assert forall i :: 1 <= i < |lines| ==> lines[i] == lines[1..][i - 1];
      Max(w, rest)
  }

  /**
   * `longest(lines, padding)`: the theme's minimum width, or the widest line
   * plus padding when that is more; an empty list gives the minimum width.
   */
  function Longest(lines: seq<string>, padding: int, display: Display): (r: int)
    ensures r >= display.minWidth
    ensures |lines| == 0 ==> r == display.minWidth
    ensures forall i :: 0 <= i < |lines| ==> r >= VisibleWidth(lines[i], display) + padding
    ensures r == display.minWidth || exists i :: 0 <= i < |lines| && r == VisibleWidth(lines[i], display) + padding
  {
    if |lines| > 0 then Max(display.minWidth, MaxLineWidth(lines, padding, display))
    else display.minWidth
  }

  /** Padding every line to `longest` lines them up: each padded line is at least that wide. */
  lemma PadToLongest(lines: seq<string>, i: nat, display: Display)
    requires i < |lines|
    requires VisibleWidth(lines[i], display) == |lines[i]|
    ensures |Pad(lines[i], Longest(lines, 0, display), " ", display)| == Longest(lines, 0, display)
  {
  }
}
