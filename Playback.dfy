/** The playback-position logic of tui.go (duplicated in main.go): which synced line
    is current, which lines are shown around it, the `MM:SS` clock and the key of the
    lyric caches. */
module Playback {
  import opened Wrappers
  import opened GoStrings
  import opened Variants
  import opened Lrc

  function Min(a: int, b: int): (r: int)
    ensures r <= a && r <= b && (r == a || r == b)
  {
    if a < b then a else b
  }

  function Max(a: int, b: int): (r: int)
    ensures r >= a && r >= b && (r == a || r == b)
  {
    if a > b then a else b
  }

  // ---------------------------------------------------------------------------
  // The current line

  /** How many lines from the start are at or before `cur`: the scan of
      `currentLyricIndex` stops at the first line that lies ahead. */
  function Reached(synced: seq<SyncedLine>, cur: int): (n: nat)
    ensures n <= |synced|
    ensures forall i :: 0 <= i < n ==> synced[i].seconds <= cur
    ensures n < |synced| ==> synced[n].seconds > cur
  {
    if synced == [] || synced[0].seconds > cur then 0 else 1 + Reached(synced[1..], cur)
  }

  /** The current line: the last one reached, or none before the first line. */
  function CurrentLine(synced: seq<SyncedLine>, cur: int): (r: Option<nat>)
    ensures r.Some? ==> r.value < |synced|
  {
    var n := Reached(synced, cur);
    if n == 0 then None else Some(n - 1)
  }

  /** `currentLyricIndex`: scan the lines in order, remembering the last one at or
      before `cur` and stopping at the first one after it. There is no current line
      exactly when there are no lines or the first one lies ahead. */
  method CurrentLyricIndex(synced: seq<SyncedLine>, cur: int) returns (idx: nat, ok: bool)
    ensures !ok <==> synced == [] || synced[0].seconds > cur
    ensures (if ok then Some(idx) else None) == CurrentLine(synced, cur)
    ensures !ok ==> idx == 0
  {
    if |synced| == 0 {
      return 0, false;
    }
    var last := -1;
    for i := 0 to |synced|
      invariant last == i - 1
      invariant forall j :: 0 <= j < i ==> synced[j].seconds <= cur
    {
      if synced[i].seconds <= cur {
        last := i;
      } else {
        break;
      }
    }
    assert Reached(synced, cur) == last + 1;
    if last == -1 {
      return 0, false;
    }
    return last, true;
  }

  /** On time-ordered lines the current line is the last line at or before `cur`,
      and with no current line every line lies ahead. */
  lemma CurrentIsLatest(synced: seq<SyncedLine>, cur: int)
    requires Sorted(synced)
    ensures match CurrentLine(synced, cur)
            case Some(i) =>
              synced[i].seconds <= cur && forall j :: i < j < |synced| ==> synced[j].seconds > cur
            case None => forall j :: 0 <= j < |synced| ==> synced[j].seconds > cur
  {
    var n := Reached(synced, cur);
    if n < |synced| {
      assert forall j :: n <= j < |synced| ==> synced[n].seconds <= synced[j].seconds;
    }
  }

  /** As playback moves on, the current line never moves back. */
  lemma CurrentMonotone(synced: seq<SyncedLine>, cur1: int, cur2: int)
    requires cur1 <= cur2
    ensures Reached(synced, cur1) <= Reached(synced, cur2)
    ensures CurrentLine(synced, cur1).Some? ==>
              CurrentLine(synced, cur2).Some? && CurrentLine(synced, cur1).value <= CurrentLine(synced, cur2).value
  {
  }

  // ---------------------------------------------------------------------------
  // The lyric window

  /** The three render styles of a lyric line. */
  datatype Style = Current | Past | Upcoming

  /** A shown lyric line: its style and its text. */
  datatype WindowLine = WindowLine(style: Style, text: string)

  /** The most lines shown, both before the first line and around the current one
      (three before it, the line itself, three after it). */
  const WindowSize := 7

  /** The first shown line and the one after the last: from the start before the
      first line, otherwise from three before the current line to three after it. */
  function Bounds(n: nat, at: Option<nat>): (r: (nat, nat))
  {
    match at
    case None => (0, Min(WindowSize, n))
    case Some(i) => (Max(i as int - 3, 0), Min(i + 4, n))
  }

  /** The style of line `i`: everything is upcoming before the first line. */
  function StyleOf(i: nat, at: Option<nat>): Style {
    match at
    case None => Upcoming
    case Some(c) => if i == c then Current else if i < c then Past else Upcoming
  }

  /** The window over synced lines. */
  function SyncedWindow(synced: seq<SyncedLine>, at: Option<nat>): seq<WindowLine>
    requires at.Some? ==> at.value < |synced|
  {
    var (start, end) := Bounds(|synced|, at);
    seq(end - start, k requires 0 <= k < end - start =>
      WindowLine(StyleOf(start + k, at), synced[start + k].text))
  }

  /** The lines of the plain text that are shown: all of them in tui.go, the first
      seven in main.go. */
  function PlainShown(variant: Variant, plain: string): seq<string> {
    var lines := Split(plain, '\n');
    if variant == Monolithic && |lines| > WindowSize then lines[..WindowSize] else lines
  }

  /** The fallback window over plain lyrics: the first line current, the rest
      upcoming. */
  function PlainWindow(lines: seq<string>): seq<WindowLine> {
    seq(|lines|, k requires 0 <= k < |lines| => WindowLine(if k == 0 then Current else Upcoming, lines[k]))
  }

  /** What `lyricWindow` shows: the synced window when there are synced lines, else
      the plain fallback when there is a lyric with plain text (`plain`), else
      nothing. */
  function Window(variant: Variant, synced: seq<SyncedLine>, plain: Option<string>, cur: int): seq<WindowLine> {
    if synced != [] then SyncedWindow(synced, CurrentLine(synced, cur))
    else match plain
      case Some(p) => PlainWindow(PlainShown(variant, p))
      case None => []
  }

  /** `lyricWindow`, building the shown lines in loops as the source does. */
  method LyricWindow(variant: Variant, synced: seq<SyncedLine>, plain: Option<string>, cur: int)
    returns (out: seq<WindowLine>)
    ensures out == Window(variant, synced, plain, cur)
  {
    if |synced| == 0 {
      if plain.Some? {
        var lines := Split(plain.value, '\n');
        if variant == Monolithic && |lines| > WindowSize {
          lines := lines[..WindowSize];
        }
        out := RenderPlain(lines);
      } else {
        out := [];
      }
      return;
    }
    var idx, ok := CurrentLyricIndex(synced, cur);
    if !ok {
      out := RenderAhead(synced);
    } else {
      out := RenderAround(synced, idx);
    }
  }

  /** The plain fallback loop: the first line current, the others upcoming. */
  method RenderPlain(lines: seq<string>) returns (out: seq<WindowLine>)
    ensures out == PlainWindow(lines)
  {
    out := [];
    for i := 0 to |lines|
      invariant |out| == i
      invariant forall k :: 0 <= k < i ==> out[k] == WindowLine(if k == 0 then Current else Upcoming, lines[k])
    {
      if i == 0 {
        out := out + [WindowLine(Current, lines[i])];
      } else {
        out := out + [WindowLine(Upcoming, lines[i])];
      }
    }
  }

  /** The loop before the first line: the first seven lines, all upcoming. */
  method RenderAhead(synced: seq<SyncedLine>) returns (out: seq<WindowLine>)
    ensures out == SyncedWindow(synced, None)
  {
    out := [];
    var end := Min(WindowSize, |synced|);
    for i := 0 to end
      invariant |out| == i
      invariant forall k :: 0 <= k < i ==> out[k] == WindowLine(Upcoming, synced[k].text)
    {
      out := out + [WindowLine(Upcoming, synced[i].text)];
    }
    BeforeFirstLine(synced);
  }

  /** The loop around the current line `idx`, styling each line by its place. */
  method RenderAround(synced: seq<SyncedLine>, idx: nat) returns (out: seq<WindowLine>)
    requires idx < |synced|
    ensures out == SyncedWindow(synced, Some(idx))
  {
    out := [];
    var start, end := Max(idx as int - 3, 0), Min(idx + 4, |synced|);
    for i := start to end
      invariant |out| == i - start
      invariant forall k :: 0 <= k < i - start ==>
                  out[k] == WindowLine(StyleOf(start + k, Some(idx)), synced[start + k].text)
    {
      var line := synced[i].text;
      if i == idx {
        out := out + [WindowLine(Current, line)];
      } else if i < idx {
        out := out + [WindowLine(Past, line)];
      } else {
        out := out + [WindowLine(Upcoming, line)];
      }
    }
  }

  /** Synced lyrics never show more than seven lines; nor does the plain fallback of
      main.go, while that of tui.go shows every line of the text. */
  lemma WindowAtMostSeven(variant: Variant, synced: seq<SyncedLine>, plain: Option<string>, cur: int)
    ensures synced != [] || variant == Monolithic ==> |Window(variant, synced, plain, cur)| <= WindowSize
    ensures synced == [] && variant == Modular && plain.Some? ==>
              |Window(variant, synced, plain, cur)| == |Split(plain.value, '\n')|
  {
  }

  /** Before the first line the window is the first (up to) seven lines, all
      upcoming. */
  lemma WindowBeforeFirst(variant: Variant, synced: seq<SyncedLine>, plain: Option<string>, cur: int)
    requires synced != [] && synced[0].seconds > cur
    ensures var w := Window(variant, synced, plain, cur);
            |w| == Min(WindowSize, |synced|) &&
            forall k :: 0 <= k < |w| ==> w[k] == WindowLine(Upcoming, synced[k].text)
  {
    assert Window(variant, synced, plain, cur) == SyncedWindow(synced, None);
    BeforeFirstLine(synced);
  }

  lemma BeforeFirstLine(synced: seq<SyncedLine>)
    ensures var w := SyncedWindow(synced, None);
            |w| == Min(WindowSize, |synced|) &&
            forall k :: 0 <= k < |w| ==> w[k] == WindowLine(Upcoming, synced[k].text)
  {
    var w := SyncedWindow(synced, None);
    assert Bounds(|synced|, None) == (0, Min(WindowSize, |synced|));
    forall k | 0 <= k < |w|
      ensures w[k] == WindowLine(Upcoming, synced[k].text)
    {
      assert w[k] == WindowLine(StyleOf(0 + k, None), synced[0 + k].text);
    }
  }

  /** Once a line is current the window runs from three lines before it to three
      lines after it (cut at both ends of the lyrics): the current line is the one
      line styled `Current`, the lines before it are `Past` and those after it are
      `Upcoming`. */
  lemma WindowAroundCurrent(variant: Variant, synced: seq<SyncedLine>, plain: Option<string>, cur: int, i: nat)
    requires CurrentLine(synced, cur) == Some(i)
    ensures var w := Window(variant, synced, plain, cur);
            var start := Max(i - 3, 0);
            |w| == Min(i + 4, |synced|) - start && start <= i < start + |w| &&
            forall k :: 0 <= k < |w| ==>
              w[k].text == synced[start + k].text &&
              (w[k].style == Current <==> start + k == i) &&
              (w[k].style == Past <==> start + k < i) &&
              (w[k].style == Upcoming <==> start + k > i)
  {
    assert Window(variant, synced, plain, cur) == SyncedWindow(synced, Some(i));
    AroundLine(synced, i);
  }

  lemma AroundLine(synced: seq<SyncedLine>, i: nat)
    requires i < |synced|
    ensures var w := SyncedWindow(synced, Some(i));
            var start := Max(i - 3, 0);
            |w| == Min(i + 4, |synced|) - start && start <= i < start + |w| &&
            forall k :: 0 <= k < |w| ==>
              w[k].text == synced[start + k].text &&
              (w[k].style == Current <==> start + k == i) &&
              (w[k].style == Past <==> start + k < i) &&
              (w[k].style == Upcoming <==> start + k > i)
  {
    var w := SyncedWindow(synced, Some(i));
    var start := Max(i - 3, 0);
    assert Bounds(|synced|, Some(i)) == (start, Min(i + 4, |synced|));
    forall k | 0 <= k < |w|
      ensures w[k] == WindowLine(StyleOf(start + k, Some(i)), synced[start + k].text)
    {
    }
  }

  /** Without synced lines the plain text is shown line by line, its first line as
      the current one. */
  lemma PlainFallback(variant: Variant, p: string, cur: int)
    ensures var w := Window(variant, [], Some(p), cur);
            var lines := Split(p, '\n');
            |w| == (if variant == Monolithic then Min(WindowSize, |lines|) else |lines|) &&
            w[0] == WindowLine(Current, lines[0]) &&
            forall k :: 1 <= k < |w| ==> w[k] == WindowLine(Upcoming, lines[k])
  {
  }

  // ---------------------------------------------------------------------------
  // The clock

  /** Go's `/` on `int`: the quotient truncated toward zero. */
  function GoDiv(a: int, b: int): (q: int)
    requires b > 0
  {
    if a >= 0 then a / b else -((-a) / b)
  }

  /** Go's `%` on `int`: the remainder has the sign of the dividend. */
  function GoMod(a: int, b: int): (r: int)
    requires b > 0
    ensures a == GoDiv(a, b) * b + r
    ensures a >= 0 ==> 0 <= r < b
    ensures a < 0 ==> -b < r <= 0
  {
    a - GoDiv(a, b) * b
  }

  /** `%02d`: at least two digits, padded with a leading zero; a negative number is
      its sign and digits, which already fill the width. */
  function Pad2(n: int): string {
    if n < 0 then "-" + NatToDigits(-n)
    else if n < 10 then "0" + NatToDigits(n)
    else NatToDigits(n)
  }

  /** `formatTime`: `%02d:%02d` of the minutes and the seconds. */
  function FormatTime(secs: int): (r: string)
    ensures var mm, ss := Pad2(GoDiv(secs, 60)), Pad2(GoMod(secs, 60));
            r == mm + ":" + ss && ':' !in mm && ':' !in ss &&
            Atoi(mm) == Some(GoDiv(secs, 60)) && Atoi(ss) == Some(GoMod(secs, 60))
  {
    Pad2Reads(GoDiv(secs, 60));
    Pad2Reads(GoMod(secs, 60));
    Pad2(GoDiv(secs, 60)) + ":" + Pad2(GoMod(secs, 60))
  }

  /** A padded number reads back as itself and holds no `:` or `.`. */
  lemma Pad2Reads(n: int)
    ensures Atoi(Pad2(n)) == Some(n)
    ensures ':' !in Pad2(n) && '.' !in Pad2(n)
  {
    var d := NatToDigits(if n < 0 then -n else n);
    assert ':' !in d && '.' !in d by {
      assert forall i :: 0 <= i < |d| ==> IsDigit(d[i]);
    }
    if n < 0 {
      assert Pad2(n)[1..] == d;
    } else if n < 10 {
      DigitsValueLeadingZero(d);
      AtoiDigits("0" + d);
    } else {
      AtoiNatToDigits(n);
    }
  }

  /** The clock of a non-negative time is `MM:SS`: two-digit seconds below 60, at
      least two digits of minutes, and `MM * 60 + SS` is the time. */
  lemma FormatTimeShape(secs: nat)
    ensures var mm, ss := Pad2(secs / 60), Pad2(secs % 60);
            FormatTime(secs) == mm + ":" + ss &&
            |mm| >= 2 && |ss| == 2 && AllDigits(mm) && AllDigits(ss) &&
            DigitsValue(ss) < 60 && DigitsValue(mm) * 60 + DigitsValue(ss) == secs
  {
    Pad2Digits(secs / 60);
    Pad2Digits(secs % 60);
  }

  lemma Pad2Digits(n: nat)
    ensures |Pad2(n)| >= 2 && AllDigits(Pad2(n)) && DigitsValue(Pad2(n)) == n
    ensures n < 100 ==> |Pad2(n)| == 2
  {
    if n < 10 {
      DigitsValueLeadingZero(NatToDigits(n));
    } else if n < 100 {
      assert NatToDigits(n) == NatToDigits(n / 10) + ['0' + (n % 10) as char];
    }
  }

  /** The clock reads back as an LRC timestamp of the same time, for every time,
      negative ones included. */
  lemma FormatTimeRoundTrip(secs: int)
    ensures ParseStamp(FormatTime(secs)) == Some(secs)
  {
    var q, r := GoDiv(secs, 60), GoMod(secs, 60);
    var mm, ss := Pad2(q), Pad2(r);
    Pad2Reads(q);
    Pad2Reads(r);
    StampOfSides(FormatTime(secs), mm, ss);
  }

  // ---------------------------------------------------------------------------
  // The cache key

  /** `cacheKey`: the trimmed, lower-cased artist and title on two lines. */
  function CacheKey(artist: string, title: string): (r: string)
    ensures var a := TrimSpace(artist);
            |r| == |a| + 1 + |TrimSpace(title)| && r[|a|] == '\n'
    ensures forall i :: 0 <= i < |r| ==> !('A' <= r[i] <= 'Z')
  {
    ToLower(TrimSpace(artist)) + "\n" + ToLower(TrimSpace(title))
  }

  /** The key does not see the case of letters. */
  lemma CacheKeyIgnoresCase(a1: string, t1: string, a2: string, t2: string)
    requires ToLower(a1) == ToLower(a2) && ToLower(t1) == ToLower(t2)
    ensures CacheKey(a1, t1) == CacheKey(a2, t2)
  {
    TrimSpaceLower(a1);
    TrimSpaceLower(a2);
    TrimSpaceLower(t1);
    TrimSpaceLower(t2);
  }

  /** The key does not see surrounding whitespace. */
  lemma CacheKeyIgnoresPadding(artist: string, title: string)
    ensures CacheKey(TrimSpace(artist), TrimSpace(title)) == CacheKey(artist, title)
  {
    TrimSpaceIdempotent(artist);
    TrimSpaceIdempotent(title);
  }

  /** For an artist without a line break the key tells tracks apart exactly as the
      trimmed, lower-cased artist and title do. */
  lemma CacheKeySeparates(a1: string, t1: string, a2: string, t2: string)
    requires '\n' !in a1 && '\n' !in a2
    ensures CacheKey(a1, t1) == CacheKey(a2, t2) <==>
              ToLower(TrimSpace(a1)) == ToLower(TrimSpace(a2)) && ToLower(TrimSpace(t1)) == ToLower(TrimSpace(t2))
  {
    var x1, x2 := ToLower(TrimSpace(a1)), ToLower(TrimSpace(a2));
    NoBreakKept(a1);
    NoBreakKept(a2);
    if CacheKey(a1, t1) == CacheKey(a2, t2) {
      var k := CacheKey(a1, t1);
      assert k[|x1|] == '\n' && k[..|x1|] == x1;
      assert k == x2 + "\n" + ToLower(TrimSpace(t2));
      assert k[|x2|] == '\n' && k[..|x2|] == x2;
      assert |x1| == |x2|;
      assert k[|x1| + 1..] == ToLower(TrimSpace(t1));
      assert k[|x2| + 1..] == ToLower(TrimSpace(t2));
    }
  }

  /** Trimming and lower-casing add no line break. */
  lemma NoBreakKept(s: string)
    requires '\n' !in s
    ensures '\n' !in ToLower(TrimSpace(s))
  {
    TrimSpaceLacks(s, '\n');
  }
}
