/**
 * The scouting form: its record, the `sanitize` normaliser, the fixed
 * 28-column tab-separated row and header line, the scoring rules and the
 * state transformers behind the form's buttons and inputs.
 */
module Scout {
  import opened Wrappers
  import opened Text
  import BigStepper
  import ChipSelect

  // ---------------------------------------------------------------------
  // The form record
  // ---------------------------------------------------------------------

  /** One teleop shift: fuel scored, a defense rating and the defense tags chosen. */
  datatype Shift = Shift(fuel: int, defense: int, defenseTags: seq<string>)

  datatype Auto = Auto(fuel: int, climb: string, wonAuto: bool, transitionShift: seq<string>)

  datatype Teleop = Teleop(shift1: Shift, shift2: Shift, shift3: Shift, shift4: Shift)

  /** `climb` is `null` once its selected chip is clicked again. */
  datatype Endgame = Endgame(climb: Option<string>, climbLevel: string, canDescend: bool, died: bool)

  /** The whole form; `position` is `null` until an alliance position is picked. */
  datatype FormData = FormData(
    initials: string,
    matchNumber: int,
    team: string,
    position: Option<string>,
    increment: int,
    auto: Auto,
    teleop: Teleop,
    endgame: Endgame,
    keywords: seq<string>)

  const NO_CLIMB := "No Climb"
  const NONE := "None"
  const SUCCESS := "Success"

  const EMPTY_SHIFT := Shift(0, 0, [])
  const INITIAL_AUTO := Auto(0, NO_CLIMB, false, [])
  const INITIAL_TELEOP := Teleop(EMPTY_SHIFT, EMPTY_SHIFT, EMPTY_SHIFT, EMPTY_SHIFT)
  const INITIAL_ENDGAME := Endgame(Some(NONE), NONE, false, false)

  /** The form as the page first shows it. */
  const INITIAL_FORM := FormData("", 1, "", None, 4, INITIAL_AUTO, INITIAL_TELEOP, INITIAL_ENDGAME, [])

  // ---------------------------------------------------------------------
  // sanitize
  // ---------------------------------------------------------------------

  /** `.replace(/\t/g, ' ')`. */
  function ReplaceTabs(s: string): (r: string)
    ensures |r| == |s|
    ensures forall i :: 0 <= i < |s| ==> r[i] == (if s[i] == '\t' then ' ' else s[i])
  {
    if |s| == 0 then ""
    else [if s[0] == '\t' then ' ' else s[0]] + ReplaceTabs(s[1..])
  }

  /** `.replace(/\r?\n/g, ' ')`: a line feed, together with a carriage return right before it, becomes one space. */
  function ReplaceNewlines(s: string): (r: string)
    ensures |r| <= |s|
  {
    if |s| == 0 then ""
    else if s[0] == '\r' && |s| >= 2 && s[1] == '\n' then " " + ReplaceNewlines(s[2..])
    else if s[0] == '\n' then " " + ReplaceNewlines(s[1..])
    else [s[0]] + ReplaceNewlines(s[1..])
  }

  /** Every whitespace character is a plain space, and no two whitespace characters are adjacent. */
  predicate SingleSpaced(s: string) {
    && (forall i :: 0 <= i < |s| && IsSpace(s[i]) ==> s[i] == ' ')
    && (forall i, j :: 0 <= i < |s| && 0 <= j < |s| && j == i + 1 ==> !(IsSpace(s[i]) && IsSpace(s[j])))
  }

  /** `.replace(/\s+/g, ' ')`: each maximal run of whitespace becomes one space. */
  function Collapse(s: string): (r: string)
    ensures |r| <= |s|
    decreases |s|
  {
    if |s| == 0 then ""
    else if IsSpace(s[0]) then
      var rest := TrimStart(s);
      assert TrimOffset(s) > 0;
      " " + Collapse(rest)
    else
      [s[0]] + Collapse(s[1..])
  }

  /**
   * After collapsing, every whitespace character is a plain space and no two
   * are adjacent; the text starts as its input does, with whitespace there
   * turned into a space.
   */
  lemma {:induction false} CollapseShape(s: string)
    ensures SingleSpaced(Collapse(s))
    ensures |s| > 0 ==> |Collapse(s)| > 0 && Collapse(s)[0] == (if IsSpace(s[0]) then ' ' else s[0])
    decreases |s|
  {
    if |s| > 0 {
      if IsSpace(s[0]) {
        assert TrimOffset(s) > 0;
        CollapseShape(TrimStart(s));
      } else {
        CollapseShape(s[1..]);
      }
    }
  }

  /** What `sanitize` produces: single-spaced and trimmed. */
  predicate Clean(s: string) {
    SingleSpaced(s) && Trimmed(s)
  }

  lemma SingleSpacedSlice(s: string, a: nat, b: nat)
    requires SingleSpaced(s) && a <= b <= |s|
    ensures SingleSpaced(s[a..b])
  {
    var t := s[a..b];
    forall i | 0 <= i < |t| && IsSpace(t[i])
      ensures t[i] == ' '
    {
      assert t[i] == s[a + i];
    }
    forall i, j | 0 <= i < |t| && 0 <= j < |t| && j == i + 1
      ensures !(IsSpace(t[i]) && IsSpace(t[j]))
    {
      assert t[i] == s[a + i] && t[j] == s[a + j];
    }
  }

  /**
   * `sanitize` on a string: tabs and line breaks become spaces, every run
   * of whitespace becomes one space, and the ends are trimmed. The result
   * holds no tab or newline, no two adjacent whitespace characters, and no
   * whitespace at either end.
   */
  function Sanitize(s: string): (r: string)
    ensures Clean(r)
  {
    var c := Collapse(ReplaceNewlines(ReplaceTabs(s)));
    CollapseShape(ReplaceNewlines(ReplaceTabs(s)));
    var r := Trim(c);
    SingleSpacedSlice(c, TrimOffset(c), TrimOffset(c) + |r|);
    r
  }

  /** A value handed to `sanitize`: a number, a string, or `null`/`undefined`. */
  datatype Value = Num(n: int) | Str(s: string) | Nullish

  /** `String(value ?? '')`. */
  function ValueText(v: Value): string {
    match v
    case Num(n) => IntToString(n)
    case Str(s) => s
    case Nullish => ""
  }

  /** `sanitize(value)`: a missing value becomes the empty string. */
  function SanitizeValue(v: Value): (r: string)
    ensures Clean(r)
    ensures v.Nullish? ==> r == ""
  {
    Sanitize(ValueText(v))
  }

  /** A clean string has no tab, so it can sit between tab separators. */
  lemma CleanHasNoTab(s: string)
    requires Clean(s)
    ensures Free(s, '\t')
  {
    forall i | 0 <= i < |s|
      ensures s[i] != '\t'
    {
      assert s[i] == '\t' ==> IsSpace(s[i]);
    }
  }

  lemma {:induction false} ReplaceTabsNoTab(s: string)
    requires Free(s, '\t')
    ensures ReplaceTabs(s) == s
  {
    if |s| > 0 {
      ReplaceTabsNoTab(s[1..]);
      assert [s[0]] + s[1..] == s;
    }
  }

  lemma {:induction false} ReplaceNewlinesNoNewline(s: string)
    requires Free(s, '\n')
    ensures ReplaceNewlines(s) == s
  {
    if |s| > 0 {
      ReplaceNewlinesNoNewline(s[1..]);
      assert [s[0]] + s[1..] == s;
    }
  }

  lemma {:induction false} CollapseSingleSpaced(s: string)
    requires SingleSpaced(s)
    ensures Collapse(s) == s
    decreases |s|
  {
    if |s| > 0 {
      SingleSpacedSlice(s, 1, |s|);
      CollapseSingleSpaced(s[1..]);
      if IsSpace(s[0]) {
        assert |s| > 1 ==> !IsSpace(s[1]);
        assert SkipSpace(s, 1) == 1;
        assert TrimStart(s) == s[1..];
      }
      assert [s[0]] + s[1..] == s;
    }
  }

  /** `sanitize` leaves a string alone exactly when it is already clean. */
  lemma SanitizeIdentity(s: string)
    ensures Sanitize(s) == s <==> Clean(s)
  {
    if Clean(s) {
      CleanHasNoTab(s);
      assert Free(s, '\n') by {
        forall i | 0 <= i < |s|
          ensures s[i] != '\n'
        {
          assert s[i] == '\n' ==> IsSpace(s[i]);
        }
      }
      ReplaceTabsNoTab(s);
      ReplaceNewlinesNoNewline(s);
      CollapseSingleSpaced(s);
      TrimIdentity(s);
    }
  }

  /** Sanitizing twice is sanitizing once. */
  lemma SanitizeIdempotent(s: string)
    ensures Sanitize(Sanitize(s)) == Sanitize(s)
  {
    SanitizeIdentity(Sanitize(s));
  }

  /** The characters of `s` other than whitespace, in order. */
  function NonSpace(s: string): string {
    if |s| == 0 then "" else (if IsSpace(s[0]) then "" else [s[0]]) + NonSpace(s[1..])
  }

  lemma {:induction false} NonSpaceConcat(a: string, b: string)
    ensures NonSpace(a + b) == NonSpace(a) + NonSpace(b)
  {
    if |a| > 0 {
      assert (a + b)[1..] == a[1..] + b;
      NonSpaceConcat(a[1..], b);
    } else {
      assert a + b == b;
    }
  }

  lemma {:induction false} NonSpaceAllSpace(s: string)
    requires forall i :: 0 <= i < |s| ==> IsSpace(s[i])
    ensures NonSpace(s) == ""
  {
    if |s| > 0 {
      NonSpaceAllSpace(s[1..]);
    }
  }

  lemma {:induction false} NonSpaceCons(c: char, s: string)
    ensures NonSpace([c] + s) == (if IsSpace(c) then "" else [c]) + NonSpace(s)
  {
    assert ([c] + s)[1..] == s;
  }

  lemma {:induction false} ReplaceTabsKeepsText(s: string)
    ensures NonSpace(ReplaceTabs(s)) == NonSpace(s)
  {
    if |s| > 0 {
      ReplaceTabsKeepsText(s[1..]);
      NonSpaceCons(if s[0] == '\t' then ' ' else s[0], ReplaceTabs(s[1..]));
    }
  }

  lemma {:induction false} ReplaceNewlinesKeepsText(s: string)
    ensures NonSpace(ReplaceNewlines(s)) == NonSpace(s)
  {
    if |s| == 0 {
    } else if s[0] == '\r' && |s| >= 2 && s[1] == '\n' {
      ReplaceNewlinesKeepsText(s[2..]);
      NonSpaceCons(' ', ReplaceNewlines(s[2..]));
      assert s[1..][1..] == s[2..];
    } else if s[0] == '\n' {
      ReplaceNewlinesKeepsText(s[1..]);
      NonSpaceCons(' ', ReplaceNewlines(s[1..]));
    } else {
      ReplaceNewlinesKeepsText(s[1..]);
      NonSpaceCons(s[0], ReplaceNewlines(s[1..]));
    }
  }

  lemma {:induction false} CollapseKeepsText(s: string)
    ensures NonSpace(Collapse(s)) == NonSpace(s)
    decreases |s|
  {
    if |s| == 0 {
    } else if IsSpace(s[0]) {
      var rest := TrimStart(s);
      assert TrimOffset(s) > 0;
      assert Collapse(s) == " " + Collapse(rest);
      CollapseKeepsText(rest);
      NonSpaceCons(' ', Collapse(rest));
      TrimStartKeepsText(s);
    } else {
      CollapseKeepsText(s[1..]);
      NonSpaceCons(s[0], Collapse(s[1..]));
    }
  }

  lemma TrimStartKeepsText(s: string)
    ensures NonSpace(TrimStart(s)) == NonSpace(s)
  {
    var k := TrimOffset(s);
    TrimStartSpace(s);
    SpaceSlice(s, 0, k);
    NonSpaceAllSpace(s[..k]);
    assert s == s[..k] + s[k..];
    NonSpaceConcat(s[..k], s[k..]);
  }

  lemma TrimKeepsText(s: string)
    ensures NonSpace(Trim(s)) == NonSpace(s)
  {
    var r := Trim(s);
    var k := TrimOffset(s);
    TrimRemovesSpace(s);
    SpaceSlice(s, 0, k);
    SpaceSlice(s, k + |r|, |s|);
    var front, back := s[..k], s[k + |r|..];
    assert s == front + r + back;
    NonSpaceAllSpace(front);
    NonSpaceAllSpace(back);
    NonSpaceConcat(front + r, back);
    NonSpaceConcat(front, r);
  }

  /** A slice of whitespace characters holds nothing but whitespace. */
  lemma SpaceSlice(s: string, a: nat, b: nat)
    requires a <= b <= |s|
    requires forall i :: a <= i < b ==> IsSpace(s[i])
    ensures forall i :: 0 <= i < |s[a..b]| ==> IsSpace(s[a..b][i])
    ensures a == 0 ==> forall i :: 0 <= i < |s[..b]| ==> IsSpace(s[..b][i])
    ensures b == |s| ==> forall i :: 0 <= i < |s[a..]| ==> IsSpace(s[a..][i])
  {
    if b == |s| {
      assert s[a..] == s[a..b];
    }
    if a == 0 {
      assert s[..b] == s[a..b];
    }
  }

  /** Every character of `s` is whitespace. */
  predicate AllSpace(s: string) {
    forall i :: 0 <= i < |s| ==> IsSpace(s[i])
  }

  /** No character of `s` is whitespace. */
  predicate NoSpace(s: string) {
    forall i :: 0 <= i < |s| ==> !IsSpace(s[i])
  }

  /** No line feed survives `ReplaceNewlines`. */
  lemma {:induction false} ReplaceNewlinesNoLineFeed(s: string)
    ensures '\n' !in ReplaceNewlines(s)
  {
    if |s| == 0 {
    } else if s[0] == '\r' && |s| >= 2 && s[1] == '\n' {
      ReplaceNewlinesNoLineFeed(s[2..]);
    } else {
      ReplaceNewlinesNoLineFeed(s[1..]);
    }
  }

  /** Replacing tabs works character by character, so it distributes over concatenation. */
  lemma {:induction false} ReplaceTabsConcat(x: string, y: string)
    ensures ReplaceTabs(x + y) == ReplaceTabs(x) + ReplaceTabs(y)
  {
    if |x| > 0 {
      assert (x + y)[1..] == x[1..] + y;
      ReplaceTabsConcat(x[1..], y);
      var h := [if x[0] == '\t' then ' ' else x[0]];
      assert h + (ReplaceTabs(x[1..]) + ReplaceTabs(y)) == (h + ReplaceTabs(x[1..])) + ReplaceTabs(y);
    } else {
      assert x + y == y;
    }
  }

  /**
   * Replacing line breaks distributes over a concatenation that does not cut
   * a `\r\n` pair in two.
   */
  lemma {:induction false} ReplaceNewlinesConcat(x: string, y: string)
    requires !(|x| > 0 && x[|x| - 1] == '\r' && |y| > 0 && y[0] == '\n')
    ensures ReplaceNewlines(x + y) == ReplaceNewlines(x) + ReplaceNewlines(y)
    decreases |x|, 1
  {
    if |x| == 0 {
      assert x + y == y;
    } else if x[0] == '\r' && |x| >= 2 && x[1] == '\n' {
      ReplaceNewlinesConcatPair(x, y);
    } else {
      ReplaceNewlinesConcatOne(x, y);
    }
  }

  /** The case of `ReplaceNewlinesConcat` where `x` starts with a `\r\n` pair. */
  lemma {:induction false} ReplaceNewlinesConcatPair(x: string, y: string)
    requires |x| >= 2 && x[0] == '\r' && x[1] == '\n'
    requires !(x[|x| - 1] == '\r' && |y| > 0 && y[0] == '\n')
    ensures ReplaceNewlines(x + y) == ReplaceNewlines(x) + ReplaceNewlines(y)
    decreases |x|, 0
  {
    assert (x + y)[2..] == x[2..] + y;
    ReplaceNewlinesConcat(x[2..], y);
  }

  /** The case of `ReplaceNewlinesConcat` where `x` starts with anything but a `\r\n` pair. */
  lemma {:induction false} ReplaceNewlinesConcatOne(x: string, y: string)
    requires |x| > 0 && !(x[0] == '\r' && |x| >= 2 && x[1] == '\n')
    requires !(x[|x| - 1] == '\r' && |y| > 0 && y[0] == '\n')
    ensures ReplaceNewlines(x + y) == ReplaceNewlines(x) + ReplaceNewlines(y)
    decreases |x|, 0
  {
    assert (x + y)[1..] == x[1..] + y;
    ReplaceNewlinesConcat(x[1..], y);
  }

  /**
   * A line feed, alone or after a carriage return, becomes exactly one space
   * between what comes before and after it.
   */
  lemma ReplaceNewlinesBreak(a: string, b: string)
    requires |a| == 0 || a[|a| - 1] != '\r'
    ensures ReplaceNewlines(a + "\n" + b) == ReplaceNewlines(a) + " " + ReplaceNewlines(b)
    ensures ReplaceNewlines(a + "\r\n" + b) == ReplaceNewlines(a) + " " + ReplaceNewlines(b)
  {
    ReplaceNewlinesConcat(a, "\n" + b);
    assert a + "\n" + b == a + ("\n" + b);
    assert ("\n" + b)[1..] == b;
    ReplaceNewlinesConcat(a, "\r\n" + b);
    assert a + "\r\n" + b == a + ("\r\n" + b);
    assert ("\r\n" + b)[2..] == b;
  }

  /** Whitespace stays whitespace through the line-break replacement, and some of it remains. */
  lemma {:induction false} ReplaceNewlinesKeepsSpace(s: string)
    requires AllSpace(s)
    ensures AllSpace(ReplaceNewlines(s))
    ensures |s| > 0 ==> |ReplaceNewlines(s)| > 0
  {
    if |s| == 0 {
    } else if s[0] == '\r' && |s| >= 2 && s[1] == '\n' {
      ReplaceNewlinesKeepsSpace(s[2..]);
    } else {
      ReplaceNewlinesKeepsSpace(s[1..]);
    }
  }

  /** From position `i`, skipping whitespace stops at the end of the run that starts there. */
  lemma {:induction false} SkipSpaceOverRun(s: string, i: nat, j: nat)
    requires i <= j <= |s|
    requires forall k :: i <= k < j ==> IsSpace(s[k])
    requires j == |s| || !IsSpace(s[j])
    ensures SkipSpace(s, i) == j
    decreases j - i
  {
    if i < j {
      SkipSpaceOverRun(s, i + 1, j);
    }
  }

  /** Skipping whitespace that stops inside `a` is not affected by what follows `a`. */
  lemma {:induction false} SkipSpaceConcat(a: string, t: string, i: nat)
    requires i <= |a| && SkipSpace(a, i) < |a|
    ensures SkipSpace(a + t, i) == SkipSpace(a, i)
    decreases |a| - i
  {
    if IsSpace(a[i]) {
      SkipSpaceConcat(a, t, i + 1);
    }
  }

  /** Removing the leading whitespace of text that starts with whitespace and ends in a word shortens it and keeps its last character. */
  lemma TrimStartEndsInWord(a: string)
    requires |a| > 0 && IsSpace(a[0]) && !IsSpace(a[|a| - 1])
    ensures 0 < |TrimStart(a)| < |a|
    ensures TrimStart(a)[|TrimStart(a)| - 1] == a[|a| - 1]
  {
    SkipSpaceSkipsSpace(a, 0);
    assert TrimOffset(a) > 0;
  }

  /** When `a` ends in a non-space character, removing leading whitespace from `a + t` only touches `a`. */
  lemma TrimStartConcat(a: string, t: string)
    requires |a| > 0 && !IsSpace(a[|a| - 1])
    ensures TrimStart(a + t) == TrimStart(a) + t
  {
    SkipSpaceSkipsSpace(a, 0);
    assert SkipSpace(a, 0) < |a|;
    SkipSpaceConcat(a, t, 0);
  }

  /** One unfolding of `Collapse` on text that starts with whitespace. */
  lemma CollapseSpaceStart(s: string)
    requires |s| > 0 && IsSpace(s[0])
    ensures Collapse(s) == " " + Collapse(TrimStart(s))
  {
  }

  /** One unfolding of `Collapse` on text that starts with another character. */
  lemma CollapseWordStart(s: string)
    requires |s| > 0 && !IsSpace(s[0])
    ensures Collapse(s) == [s[0]] + Collapse(s[1..])
  {
  }

  /** A run of whitespace at the start of the text collapses to one space, and the rest collapses on its own. */
  lemma CollapseLeadingRun(w: string, b: string)
    requires |w| > 0 && AllSpace(w)
    requires |b| == 0 || !IsSpace(b[0])
    ensures Collapse(w + b) == " " + Collapse(b)
  {
    var s := w + b;
    SkipSpaceOverRun(s, 0, |w|);
    assert s[|w|..] == b;
    CollapseSpaceStart(s);
  }

  /** Collapsing works on each side of a cut made just after a non-space character. */
  lemma {:induction false} CollapseConcat(a: string, t: string)
    requires |a| > 0 && !IsSpace(a[|a| - 1])
    ensures Collapse(a + t) == Collapse(a) + Collapse(t)
    decreases |a|, 1
  {
    if IsSpace(a[0]) {
      CollapseConcatAfterSpace(a, t);
    } else if |a| == 1 {
      assert (a + t)[1..] == t;
      CollapseWordStart(a + t);
      CollapseWordStart(a);
    } else {
      CollapseConcatAfterWord(a, t);
    }
  }

  /** The case of `CollapseConcat` where `a` starts with whitespace. */
  lemma {:induction false} CollapseConcatAfterSpace(a: string, t: string)
    requires |a| > 0 && IsSpace(a[0]) && !IsSpace(a[|a| - 1])
    ensures Collapse(a + t) == Collapse(a) + Collapse(t)
    decreases |a|, 0
  {
    var rest := TrimStart(a);
    assert 0 < |rest| < |a| && rest[|rest| - 1] == a[|a| - 1] by {
      TrimStartEndsInWord(a);
    }
    var x, y := Collapse(rest), Collapse(t);
    assert Collapse(a + t) == " " + Collapse(rest + t) by {
      TrimStartConcat(a, t);
      CollapseSpaceStart(a + t);
    }
    assert Collapse(a) == " " + x by {
      CollapseSpaceStart(a);
    }
    assert Collapse(rest + t) == x + y by {
      CollapseConcat(rest, t);
    }
    assert " " + (x + y) == (" " + x) + y;
  }

  /** The case of `CollapseConcat` where `a` starts with another character and goes on after it. */
  lemma {:induction false} CollapseConcatAfterWord(a: string, t: string)
    requires |a| > 1 && !IsSpace(a[0]) && !IsSpace(a[|a| - 1])
    ensures Collapse(a + t) == Collapse(a) + Collapse(t)
    decreases |a|, 0
  {
    assert (a + t)[1..] == a[1..] + t;
    CollapseWordStart(a + t);
    CollapseWordStart(a);
    CollapseConcat(a[1..], t);
    var x, y := Collapse(a[1..]), Collapse(t);
    assert [a[0]] + (x + y) == ([a[0]] + x) + y;
  }

  /**
   * A run of whitespace after a word, between it and the next word or at
   * the end of the text, collapses to exactly one space, and the text on
   * each side collapses on its own. `CollapseLeadingRun` is the case of a
   * run at the start.
   */
  lemma CollapseRun(a: string, w: string, b: string)
    requires |w| > 0 && AllSpace(w)
    requires |a| > 0 && !IsSpace(a[|a| - 1])
    requires |b| == 0 || !IsSpace(b[0])
    ensures Collapse(a + (w + b)) == Collapse(a) + " " + Collapse(b)
  {
    CollapseLeadingRun(w, b);
    CollapseConcat(a, w + b);
    var x, y := Collapse(a), Collapse(b);
    assert x + (" " + y) == x + " " + y;
  }

  /** Text without whitespace is its own collapse. */
  lemma CollapseNoSpace(s: string)
    requires NoSpace(s)
    ensures Collapse(s) == s
  {
    CollapseSingleSpaced(s);
  }

  /** Tab replacement leaves the words alone and keeps the run between them whitespace. */
  lemma ReplaceTabsRun(a: string, w: string, b: string)
    requires NoSpace(a) && NoSpace(b) && AllSpace(w)
    ensures ReplaceTabs(a + w + b) == a + ReplaceTabs(w) + b
    ensures AllSpace(ReplaceTabs(w)) && |ReplaceTabs(w)| == |w|
  {
    assert IsSpace('\t');
    ReplaceTabsConcat(a + w, b);
    ReplaceTabsConcat(a, w);
    ReplaceTabsNoTab(a);
    ReplaceTabsNoTab(b);
  }

  /** Line-break replacement leaves the words alone and keeps the run between them whitespace. */
  lemma ReplaceNewlinesRun(a: string, w: string, b: string)
    requires |a| > 0 && |b| > 0 && NoSpace(a) && NoSpace(b) && AllSpace(w)
    ensures ReplaceNewlines(a + w + b) == a + ReplaceNewlines(w) + b
    ensures AllSpace(ReplaceNewlines(w)) && (|w| > 0 ==> |ReplaceNewlines(w)| > 0)
  {
    assert IsSpace('\n');
    assert a + w + b == a + (w + b);
    ReplaceNewlinesConcat(a, w + b);
    ReplaceNewlinesConcat(w, b);
    ReplaceNewlinesNoNewline(a);
    ReplaceNewlinesNoNewline(b);
    ReplaceNewlinesKeepsSpace(w);
  }

  /**
   * Two words separated by any run of whitespace (spaces, tabs, line
   * breaks) come out of `sanitize` as the two words with one space between
   * them.
   */
  lemma SanitizeSeparatesWords(a: string, w: string, b: string)
    requires |a| > 0 && |b| > 0 && NoSpace(a) && NoSpace(b)
    requires |w| > 0 && AllSpace(w)
    ensures Sanitize(a + w + b) == a + " " + b
  {
    var w1 := ReplaceTabs(w);
    var w2 := ReplaceNewlines(w1);
    var c := a + " " + b;
    assert ReplaceTabs(a + w + b) == a + w1 + b && AllSpace(w1) && |w1| > 0 by {
      ReplaceTabsRun(a, w, b);
    }
    assert ReplaceNewlines(a + w1 + b) == a + (w2 + b) && AllSpace(w2) && |w2| > 0 by {
      ReplaceNewlinesRun(a, w1, b);
      assert a + w2 + b == a + (w2 + b);
    }
    assert Collapse(a + (w2 + b)) == c by {
      CollapseRun(a, w2, b);
      CollapseNoSpace(a);
      CollapseNoSpace(b);
    }
    assert Trim(c) == c by {
      assert c[0] == a[0] && c[|c| - 1] == b[|b| - 1];
      TrimIdentity(c);
    }
  }

  /** `sanitize` changes only whitespace: the other characters come through in order. */
  lemma SanitizeKeepsText(s: string)
    ensures NonSpace(Sanitize(s)) == NonSpace(s)
  {
    var c := Collapse(ReplaceNewlines(ReplaceTabs(s)));
    ReplaceTabsKeepsText(s);
    ReplaceNewlinesKeepsText(ReplaceTabs(s));
    CollapseKeepsText(ReplaceNewlines(ReplaceTabs(s)));
    TrimKeepsText(c);
  }

  // ---------------------------------------------------------------------
  // Scoring
  // ---------------------------------------------------------------------

  /** `getTotalFuel`: the fuel of the four teleop shifts. */
  function GetTotalFuel(d: FormData): int {
    d.teleop.shift1.fuel + d.teleop.shift2.fuel + d.teleop.shift3.fuel + d.teleop.shift4.fuel
  }

  /** An auto climb that scores: `Climb` or `Pullup`. */
  predicate AutoClimbScores(climb: string) {
    climb == "Climb" || climb == "Pullup"
  }

  /** `getAutoScore`: two points per auto fuel, 15 for a climb or pull-up, 4 for winning auto. */
  function GetAutoScore(d: FormData): (score: int)
    ensures d.auto.fuel >= 0 ==> score >= 0
    ensures score - 2 * d.auto.fuel in {0, 4, 15, 19}
    ensures d.auto.wonAuto <==> score - 2 * d.auto.fuel in {4, 19}
    ensures AutoClimbScores(d.auto.climb) <==> score - 2 * d.auto.fuel in {15, 19}
  {
    var score := 0;
    var score := score + d.auto.fuel * 2;
    var score := if AutoClimbScores(d.auto.climb) then score + 15 else score;
    if d.auto.wonAuto then score + 4 else score
  }

  /** `getEndgameScore`: 10, 20 or 30 for climb levels 1 to 3, nothing otherwise. */
  function GetEndgameScore(d: FormData): (score: int)
    ensures score in {0, 10, 20, 30}
    ensures score == 0 <==> d.endgame.climbLevel !in {"Level 1", "Level 2", "Level 3"}
    ensures d.endgame.climbLevel == "Level 1" ==> score == 10
    ensures d.endgame.climbLevel == "Level 2" ==> score == 20
    ensures score == 30 <==> d.endgame.climbLevel == "Level 3"
  {
    var level := d.endgame.climbLevel;
    var score := 0;
    var score := if level == "Level 1" then score + 10 else score;
    var score := if level == "Level 2" then score + 20 else score;
    if level == "Level 3" then score + 30 else score
  }

  /**
   * `getTotalScore`, accumulated on its own as the page does it: auto
   * points, then the teleop fuel, then the climb level.
   */
  function GetTotalScore(d: FormData): int {
    var score := 0;
    var score := score + d.auto.fuel * 2;
    var score := if d.auto.climb == "Climb" || d.auto.climb == "Pullup" then score + 15 else score;
    var score := if d.auto.wonAuto then score + 4 else score;
    var score := score + GetTotalFuel(d);
    var score := if d.endgame.climbLevel == "Level 1" then score + 10 else score;
    var score := if d.endgame.climbLevel == "Level 2" then score + 20 else score;
    if d.endgame.climbLevel == "Level 3" then score + 30 else score
  }

  /** The total is the sum of the three parts the page shows beside it. */
  lemma TotalScoreParts(d: FormData)
    ensures GetTotalScore(d) == GetAutoScore(d) + GetTotalFuel(d) + GetEndgameScore(d)
  {
  }

  // ---------------------------------------------------------------------
  // The tab-separated row
  // ---------------------------------------------------------------------

  /** The 28 columns of the row, one per key of `FIELDS`. */
  datatype Column =
    | MatchColumn | Team | Scouter | Position
    | AutoFuel | AutoClimb | AutoWon | AutoTransition
    | Shift1Fuel | Shift1Defense | Shift1DefenseTags
    | Shift2Fuel | Shift2Defense | Shift2DefenseTags
    | Shift3Fuel | Shift3Defense | Shift3DefenseTags
    | Shift4Fuel | Shift4Defense | Shift4DefenseTags
    | TotalFuel | EndgameClimb | EndgameClimbLevel | EndgameDescend | EndgameDied
    | TotalScore | Keywords | Timestamp

  /** `FIELDS`: the column order of both the header line and the data row. */
  const FIELDS: seq<Column> := [
    MatchColumn, Team, Scouter, Position,
    AutoFuel, AutoClimb, AutoWon, AutoTransition,
    Shift1Fuel, Shift1Defense, Shift1DefenseTags,
    Shift2Fuel, Shift2Defense, Shift2DefenseTags,
    Shift3Fuel, Shift3Defense, Shift3DefenseTags,
    Shift4Fuel, Shift4Defense, Shift4DefenseTags,
    TotalFuel, EndgameClimb, EndgameClimbLevel, EndgameDescend, EndgameDied,
    TotalScore, Keywords, Timestamp]

  /** The position of column `c` in `FIELDS`. */
  function ColumnIndex(c: Column): (i: nat)
    ensures i < |FIELDS| == 28 && FIELDS[i] == c
  {
    match c
    case MatchColumn => 0
    case Team => 1
    case Scouter => 2
    case Position => 3
    case AutoFuel => 4
    case AutoClimb => 5
    case AutoWon => 6
    case AutoTransition => 7
    case Shift1Fuel => 8
    case Shift1Defense => 9
    case Shift1DefenseTags => 10
    case Shift2Fuel => 11
    case Shift2Defense => 12
    case Shift2DefenseTags => 13
    case Shift3Fuel => 14
    case Shift3Defense => 15
    case Shift3DefenseTags => 16
    case Shift4Fuel => 17
    case Shift4Defense => 18
    case Shift4DefenseTags => 19
    case TotalFuel => 20
    case EndgameClimb => 21
    case EndgameClimbLevel => 22
    case EndgameDescend => 23
    case EndgameDied => 24
    case TotalScore => 25
    case Keywords => 26
    case Timestamp => 27
  }

  /** The column titles of `buildTSVHeaders`. */
  function Header(c: Column): string {
    match c
    case MatchColumn => "Match"
    case Team => "Team"
    case Scouter => "Scouter"
    case Position => "Position"
    case AutoFuel => "Auto Fuel"
    case AutoClimb => "Auto Climb"
    case AutoWon => "Auto Won"
    case AutoTransition => "Auto Transition"
    case Shift1Fuel => "Shift 1 Fuel"
    case Shift1Defense => "Shift 1 Defense"
    case Shift1DefenseTags => "Shift 1 Defense Tags"
    case Shift2Fuel => "Shift 2 Fuel"
    case Shift2Defense => "Shift 2 Defense"
    case Shift2DefenseTags => "Shift 2 Defense Tags"
    case Shift3Fuel => "Shift 3 Fuel"
    case Shift3Defense => "Shift 3 Defense"
    case Shift3DefenseTags => "Shift 3 Defense Tags"
    case Shift4Fuel => "Shift 4 Fuel"
    case Shift4Defense => "Shift 4 Defense"
    case Shift4DefenseTags => "Shift 4 Defense Tags"
    case TotalFuel => "Total Fuel"
    case EndgameClimb => "Endgame Climb"
    case EndgameClimbLevel => "Endgame Climb Level"
    case EndgameDescend => "Endgame Descend"
    case EndgameDied => "Endgame Died"
    case TotalScore => "Total Score"
    case Keywords => "Keywords"
    case Timestamp => "Timestamp"
  }

  /** `flag ? 'Y' : 'N'`. */
  function YesNo(flag: bool): string {
    if flag then "Y" else "N"
  }

  /** A list joined with commas, as `Array.prototype.join(',')` does. */
  function CommaList(items: seq<string>): string {
    Join(items, ',')
  }

  /**
   * The entry of the row object `buildTSV` fills for column `c`. The clock
   * reading `Date.now()` is the parameter `now`.
   */
  function Cell(d: FormData, now: int, c: Column): Value {
    match c
    case MatchColumn => Num(d.matchNumber)
    case Team => Str(d.team)
    case Scouter => Str(d.initials)
    case Position => Str(d.position.GetOr(""))
    case AutoFuel => Num(d.auto.fuel)
    case AutoClimb => Str(d.auto.climb)
    case AutoWon => Str(YesNo(d.auto.wonAuto))
    case AutoTransition => Str(CommaList(d.auto.transitionShift))
    case Shift1Fuel => Num(d.teleop.shift1.fuel)
    case Shift1Defense => Num(d.teleop.shift1.defense)
    case Shift1DefenseTags => Str(CommaList(d.teleop.shift1.defenseTags))
    case Shift2Fuel => Num(d.teleop.shift2.fuel)
    case Shift2Defense => Num(d.teleop.shift2.defense)
    case Shift2DefenseTags => Str(CommaList(d.teleop.shift2.defenseTags))
    case Shift3Fuel => Num(d.teleop.shift3.fuel)
    case Shift3Defense => Num(d.teleop.shift3.defense)
    case Shift3DefenseTags => Str(CommaList(d.teleop.shift3.defenseTags))
    case Shift4Fuel => Num(d.teleop.shift4.fuel)
    case Shift4Defense => Num(d.teleop.shift4.defense)
    case Shift4DefenseTags => Str(CommaList(d.teleop.shift4.defenseTags))
    case TotalFuel => Num(GetTotalFuel(d))
    case EndgameClimb => if d.endgame.climb.Some? then Str(d.endgame.climb.value) else Nullish
    case EndgameClimbLevel => Str(d.endgame.climbLevel)
    case EndgameDescend => Str(YesNo(d.endgame.canDescend))
    case EndgameDied => Str(YesNo(d.endgame.died))
    case TotalScore => Num(GetTotalScore(d))
    case Keywords => Str(CommaList(d.keywords))
    case Timestamp => Num(now)
  }

  /** `values.map(sanitize)`. */
  function SanitizeAll(values: seq<string>): (r: seq<string>)
    ensures |r| == |values|
    ensures forall k :: 0 <= k < |r| ==> r[k] == Sanitize(values[k])
    ensures forall k :: 0 <= k < |r| ==> Clean(r[k])
  {
    if |values| == 0 then [] else [Sanitize(values[0])] + SanitizeAll(values[1..])
  }

  /** The titles of some columns, in order. */
  function Titles(cols: seq<Column>): (r: seq<string>)
    ensures |r| == |cols|
    ensures forall k :: 0 <= k < |r| ==> r[k] == Header(cols[k])
  {
    if |cols| == 0 then [] else [Header(cols[0])] + Titles(cols[1..])
  }

  /** The entries of the row object for some columns, as `String(value ?? '')` renders them. */
  function Entries(d: FormData, now: int, cols: seq<Column>): (r: seq<string>)
    ensures |r| == |cols|
    ensures forall k :: 0 <= k < |r| ==> r[k] == ValueText(Cell(d, now, cols[k]))
  {
    if |cols| == 0 then [] else [ValueText(Cell(d, now, cols[0]))] + Entries(d, now, cols[1..])
  }

  /** `buildTSVHeaders`: the 28 sanitized titles in `FIELDS` order, joined by tabs. */
  function BuildTSVHeaders(): string {
    Join(SanitizeAll(Titles(FIELDS)), '\t')
  }

  /** `buildTSV`: the 28 sanitized cells of the form in `FIELDS` order, joined by tabs. */
  function BuildTSV(d: FormData, now: int): string {
    Join(SanitizeAll(Entries(d, now, FIELDS)), '\t')
  }

  /**
   * Sanitized values contain no tab, so a tab-joined line of them splits
   * back into exactly those values, one field per value.
   */
  lemma SanitizedLineSplits(values: seq<string>)
    requires |values| >= 1
    ensures Split(Join(SanitizeAll(values), '\t'), '\t') == SanitizeAll(values)
  {
    CleanLineSplits(SanitizeAll(values));
  }

  lemma CleanLineSplits(clean: seq<string>)
    requires |clean| >= 1
    requires forall k :: 0 <= k < |clean| ==> Clean(clean[k])
    ensures Split(Join(clean, '\t'), '\t') == clean
  {
    forall k | 0 <= k < |clean|
      ensures Free(clean[k], '\t')
    {
      CleanHasNoTab(clean[k]);
    }
    SplitJoin(clean, '\t');
  }

  /** Splitting the header line on tabs gives back 28 fields: the sanitized title of each column in `FIELDS` order. */
  lemma BuildTSVHeadersSplits()
    ensures Split(BuildTSVHeaders(), '\t') == SanitizeAll(Titles(FIELDS))
    ensures |Split(BuildTSVHeaders(), '\t')| == 28
  {
    SanitizedLineSplits(Titles(FIELDS));
  }

  /** The fields of the data row, read back by splitting it on tabs. */
  function RowFields(d: FormData, now: int): seq<string> {
    Split(BuildTSV(d, now), '\t')
  }

  /**
   * Splitting the data row on tabs gives back exactly 28 fields, the
   * sanitized entry of each column in `FIELDS` order.
   */
  lemma BuildTSVSplits(d: FormData, now: int)
    ensures RowFields(d, now) == SanitizeAll(Entries(d, now, FIELDS))
    ensures |RowFields(d, now)| == 28
  {
    SanitizedLineSplits(Entries(d, now, FIELDS));
  }

  /** Winning auto is encoded as `Y`, losing it as `N`. */
  lemma BuildTSVAutoWon(d: FormData, now: int)
    ensures |RowFields(d, now)| == 28
    ensures RowFields(d, now)[6] == YesNo(d.auto.wonAuto)
  {
    RowEntry(d, now, 6, AutoWon, YesNo(d.auto.wonAuto));
    SanitizeFlag(d.auto.wonAuto);
  }

  /** Being able to descend is encoded as `Y` or `N`. */
  lemma BuildTSVDescend(d: FormData, now: int)
    ensures |RowFields(d, now)| == 28
    ensures RowFields(d, now)[23] == YesNo(d.endgame.canDescend)
  {
    RowEntry(d, now, 23, EndgameDescend, YesNo(d.endgame.canDescend));
    SanitizeFlag(d.endgame.canDescend);
  }

  /** Having died is encoded as `Y` or `N`. */
  lemma BuildTSVDied(d: FormData, now: int)
    ensures |RowFields(d, now)| == 28
    ensures RowFields(d, now)[24] == YesNo(d.endgame.died)
  {
    RowEntry(d, now, 24, EndgameDied, YesNo(d.endgame.died));
    SanitizeFlag(d.endgame.died);
  }

  /** A position not yet picked is an empty field. */
  lemma BuildTSVNoPosition(d: FormData, now: int)
    requires d.position.None?
    ensures |RowFields(d, now)| == 28
    ensures RowFields(d, now)[3] == ""
  {
    var empty := d.position.GetOr("");
    RowEntry(d, now, 3, Position, empty);
    SanitizeEmpty(empty);
  }

  /** An endgame climb cleared to `null` is an empty field. */
  lemma BuildTSVNoClimb(d: FormData, now: int)
    requires d.endgame.climb.None?
    ensures |RowFields(d, now)| == 28
    ensures RowFields(d, now)[21] == ""
  {
    RowEntry(d, now, 21, EndgameClimb, "");
    SanitizeEmpty("");
  }

  /** The transition-shift keywords are joined with commas before they are sanitized. */
  lemma BuildTSVTransition(d: FormData, now: int)
    ensures |RowFields(d, now)| == 28
    ensures RowFields(d, now)[7] == Sanitize(CommaList(d.auto.transitionShift))
  {
    RowEntry(d, now, 7, AutoTransition, CommaList(d.auto.transitionShift));
  }

  /** The keywords are joined with commas before they are sanitized. */
  lemma BuildTSVKeywords(d: FormData, now: int)
    ensures |RowFields(d, now)| == 28
    ensures RowFields(d, now)[26] == Sanitize(CommaList(d.keywords))
  {
    RowEntry(d, now, 26, Keywords, CommaList(d.keywords));
  }

  /** Field `k` of the data row, for the column `c` at position `k`, is the sanitized text of its entry. */
  lemma RowEntry(d: FormData, now: int, k: nat, c: Column, text: string)
    requires k < 28 && FIELDS[k] == c && ValueText(Cell(d, now, c)) == text
    ensures |RowFields(d, now)| == 28
    ensures RowFields(d, now)[k] == Sanitize(text)
  {
    BuildTSVSplits(d, now);
    var entries := Entries(d, now, FIELDS);
    assert entries[k] == ValueText(Cell(d, now, FIELDS[k]));
  }

  lemma SanitizeFlag(flag: bool)
    ensures Sanitize(YesNo(flag)) == YesNo(flag)
  {
    var s := YesNo(flag);
    assert Clean(s);
    SanitizeIdentity(s);
  }

  lemma SanitizeEmpty(s: string)
    requires |s| == 0
    ensures Sanitize(s) == s
  {
    SanitizeIdentity(s);
  }

  // ---------------------------------------------------------------------
  // Form transformers
  // ---------------------------------------------------------------------

  /**
   * `handleClimbLevelChange`: clicking the selected level clears it to
   * `None` and keeps the climb result; clicking another level selects it
   * and marks the climb a success. Nothing else changes.
   */
  function ClimbLevelChange(d: FormData, newLevel: string): (r: FormData)
    ensures d.endgame.climbLevel == newLevel ==> r.endgame.climbLevel == NONE && r.endgame.climb == d.endgame.climb
    ensures d.endgame.climbLevel != newLevel && newLevel != NONE ==> r.endgame.climbLevel == newLevel && r.endgame.climb == Some(SUCCESS)
    ensures r.endgame.climbLevel != NONE ==> r.endgame.climb == Some(SUCCESS)
    ensures r == d.(endgame := d.endgame.(climbLevel := r.endgame.climbLevel, climb := r.endgame.climb))
  {
    var target := if d.endgame.climbLevel == newLevel then NONE else newLevel;
    d.(endgame := d.endgame.(climbLevel := target, climb := if target != NONE then Some(SUCCESS) else d.endgame.climb))
  }

  /** Clicking the same level twice from a fresh climb leaves no level selected but the climb marked a success. */
  lemma ClimbLevelTwice(d: FormData, level: string)
    requires level != NONE && d.endgame.climbLevel != level
    ensures ClimbLevelChange(ClimbLevelChange(d, level), level).endgame == d.endgame.(climbLevel := NONE, climb := Some(SUCCESS))
  {
  }

  /**
   * A click on the endgame climb chip (single select): the selected result
   * is cleared to `null`, any other result is selected. Nothing else changes.
   */
  function EndgameClimbClick(d: FormData, value: string): (r: FormData)
    ensures r.endgame.climb.None? <==> d.endgame.climb == Some(value)
    ensures r.endgame.climb.Some? ==> r.endgame.climb.value == value
    ensures r == d.(endgame := d.endgame.(climb := r.endgame.climb))
  {
    d.(endgame := d.endgame.(climb := ChipSelect.SelectSingle(d.endgame.climb, value)))
  }

  /**
   * `handleClear`: the next match with a blank sheet; the scout's initials
   * and the fuel increment carry over.
   */
  function Clear(d: FormData): (r: FormData)
    ensures r.matchNumber == d.matchNumber + 1
    ensures r.initials == d.initials && r.increment == d.increment
    ensures r.(matchNumber := 1, initials := "", increment := 4) == INITIAL_FORM
  {
    d.(matchNumber := d.matchNumber + 1, team := "", position := None,
       auto := INITIAL_AUTO, teleop := INITIAL_TELEOP, endgame := INITIAL_ENDGAME, keywords := [])
  }

  /** Clearing twice advances two matches and is otherwise the same as clearing once; a cleared sheet scores nothing. */
  lemma ClearTwice(d: FormData)
    ensures Clear(Clear(d)) == Clear(d).(matchNumber := d.matchNumber + 2)
    ensures GetTotalScore(Clear(d)) == 0
  {
  }

  /** The minus button of the match and increment steppers: `Math.max(1, value - 1)`. */
  function StepDown(value: int): (r: int)
    ensures r >= 1
    ensures value >= 2 ==> r == value - 1
    ensures value <= 2 ==> r == 1
  {
    if 1 > value - 1 then 1 else value - 1
  }

  /** The plus button of the match and increment steppers. */
  function StepUp(value: int): (r: int)
    ensures r == value + 1
    ensures value >= 1 ==> r >= 2
  {
    value + 1
  }

  /** The form's minus button is the big stepper's minus with increment 1 and minimum 1. */
  lemma StepDownIsClampedMinus(value: int)
    ensures StepDown(value) == BigStepper.Minus(value, 1, 1)
  {
  }

  /**
   * The typed match or increment: the digits of the input read as a
   * decimal number, with 1 in place of no digits or zero, and never below 1.
   */
  function TypedPositive(text: string): (r: int)
    ensures r >= 1
    ensures DigitsOnly(text) == "" ==> r == 1
    ensures DigitsOnly(text) != "" && DecimalValue(DigitsOnly(text)) >= 1 ==> r == DecimalValue(DigitsOnly(text))
    ensures DigitsOnly(text) != "" && DecimalValue(DigitsOnly(text)) == 0 ==> r == 1
  {
    var digits := DigitsOnly(text);
    var value := if digits == "" then 0 else DecimalValue(digits);
    var value := if value == 0 then 1 else value;
    if 1 > value then 1 else value
  }

  /** Typing the decimal text of a positive number enters that number. */
  lemma TypedPositiveRoundTrip(n: nat)
    requires n >= 1
    ensures TypedPositive(NatToString(n)) == n
  {
    DigitsOnlyOfDigits(NatToString(n));
    DecimalValueOfNatToString(n);
  }

  /** The typed team number: the digits of the input, at most the first five. */
  function TeamInput(text: string): (r: string)
    ensures |r| <= 5
    ensures forall i :: 0 <= i < |r| ==> IsDigit(r[i])
    ensures |r| <= |DigitsOnly(text)| && r == DigitsOnly(text)[..|r|]
    ensures |DigitsOnly(text)| <= 5 ==> r == DigitsOnly(text)
  {
    var digits := DigitsOnly(text);
    if |digits| <= 5 then digits else digits[..5]
  }

  /** Retyping a team number the input already holds leaves it as it is. */
  lemma TeamInputStable(text: string)
    ensures TeamInput(TeamInput(text)) == TeamInput(text)
  {
    DigitsOnlyOfDigits(TeamInput(text));
  }

  // ---------------------------------------------------------------------
  // Defense shifts
  // ---------------------------------------------------------------------

  /** Shifts 1 and 3 are defense shifts for the alliance that won auto, shifts 2 and 4 otherwise. */
  predicate IsDefenseShift(wonAuto: bool, shift: int) {
    if wonAuto then shift == 1 || shift == 3 else shift == 2 || shift == 4
  }

  function DefenseShifts(wonAuto: bool): set<int> {
    set shift | 1 <= shift <= 4 && IsDefenseShift(wonAuto, shift)
  }

  /**
   * Exactly two of the four shifts are defense shifts, and a shift is a
   * defense shift for one outcome of auto exactly when it is a fuel shift
   * for the other.
   */
  lemma DefenseShiftsSplit(wonAuto: bool)
    ensures DefenseShifts(wonAuto) == if wonAuto then {1, 3} else {2, 4}
    ensures |DefenseShifts(wonAuto)| == 2
    ensures DefenseShifts(wonAuto) + DefenseShifts(!wonAuto) == {1, 2, 3, 4}
    ensures DefenseShifts(wonAuto) * DefenseShifts(!wonAuto) == {}
  {
    assert DefenseShifts(true) == {1, 3};
    assert DefenseShifts(false) == {2, 4};
  }
}
