/** The player status reader of cmus.go (duplicated in main.go): the parser for the
    line-oriented key/value text that `cmus-remote -Q` prints. */
module Cmus {
  import opened Wrappers
  import opened GoStrings
  import opened Seqs

  /** A snapshot of the player: `Current` is the playback position in seconds. */
  datatype TrackInfo = TrackInfo(artist: string, title: string, duration: int, current: int)

  /** Go's zero value of `TrackInfo`. */
  const ZeroInfo := TrackInfo("", "", 0, 0)

  const ArtistPrefix := "tag artist "
  const TitlePrefix := "tag title "
  const DurationPrefix := "duration "
  const PositionPrefix := "position "
  const EmptyOutput := "empty output"

  /** The four fields of a snapshot and the values they hold. */
  datatype Field = Artist | Title | Duration | Current
  datatype Value = Text(s: string) | Number(n: int)

  predicate WellTyped(f: Field, v: Value) {
    if f == Artist || f == Title then v.Text? else v.Number?
  }

  function Get(info: TrackInfo, f: Field): (v: Value)
    ensures WellTyped(f, v)
  {
    match f
    case Artist => Text(info.artist)
    case Title => Text(info.title)
    case Duration => Number(info.duration)
    case Current => Number(info.current)
  }

  /** Overwrites one field: that field now holds `v` and every other field is kept. */
  function Put(info: TrackInfo, f: Field, v: Value): (r: TrackInfo)
    requires WellTyped(f, v)
    ensures Get(r, f) == v
    ensures forall g :: g != f ==> Get(r, g) == Get(info, g)
  {
    match f
    case Artist => info.(artist := v.s)
    case Title => info.(title := v.s)
    case Duration => info.(duration := v.n)
    case Current => info.(current := v.n)
  }

  /** What one output line does to the snapshot: set one field, or nothing. */
  datatype Effect = NoEffect | Set(field: Field, value: Value)

  predicate Sets(e: Effect, f: Field) {
    e.Set? && e.field == f
  }

  /** The second whitespace-separated field of a `duration`/`position` line, read as
      an integer; a missing or non-integer field has no effect. */
  function NumberEffect(f: Field, line: string): (e: Effect)
    requires f == Duration || f == Current
    ensures e.Set? ==> e.field == f && WellTyped(f, e.value)
  {
    var parts := Fields(line);
    if |parts| >= 2 && Atoi(parts[1]).Some? then Set(f, Number(Atoi(parts[1]).value)) else NoEffect
  }

  /** The meaning of one line of output. The prefix tests run on the trimmed line. */
  function LineEffect(raw: string): (e: Effect)
    ensures e.Set? ==> WellTyped(e.field, e.value)
  {
    TrimmedEffect(TrimSpace(raw))
  }

  /** The meaning of a line once trimmed; the empty line has no effect. */
  function TrimmedEffect(line: string): (e: Effect)
    ensures e.Set? ==> WellTyped(e.field, e.value)
  {
    if line == "" then NoEffect
    else if HasPrefix(line, ArtistPrefix) then Set(Artist, Text(TrimSpace(line[|ArtistPrefix|..])))
    else if HasPrefix(line, TitlePrefix) then Set(Title, Text(TrimSpace(line[|TitlePrefix|..])))
    else if HasPrefix(line, DurationPrefix) then NumberEffect(Duration, line)
    else if HasPrefix(line, PositionPrefix) then NumberEffect(Current, line)
    else NoEffect
  }

  /** The effect on a snapshot; an ill-typed effect, which no line produces, is
      ignored. */
  function Apply(info: TrackInfo, e: Effect): TrackInfo {
    match e
    case NoEffect => info
    case Set(f, v) => if WellTyped(f, v) then Put(info, f, v) else info
  }

  /** The snapshot after applying the effects in order, starting from `info`. */
  function Run(info: TrackInfo, es: seq<Effect>): TrackInfo {
    if es == [] then info else Apply(Run(info, es[..|es| - 1]), es[|es| - 1])
  }

  /** The snapshot the lines of an output build from `info`. */
  function Fold(info: TrackInfo, lines: seq<string>): TrackInfo {
    Run(info, Map(LineEffect, lines))
  }

  /** `ParseCmusOutput`: blank output is an error with the zero snapshot; any other
      output succeeds with the snapshot its lines build from the zero snapshot. */
  method ParseCmusOutput(output: string) returns (info: TrackInfo, err: Option<string>)
    ensures err.Some? <==> AllSpace(output)
    ensures err.Some? ==> info == ZeroInfo && err.value == EmptyOutput
    ensures err.None? ==> info == Fold(ZeroInfo, Split(output, '\n'))
  {
    info := ZeroInfo;
    TrimSpaceEmpty(output);
    if TrimSpace(output) == "" {
      return info, Some(EmptyOutput);
    }
    var lines := Split(output, '\n');
    for n := 0 to |lines|
      invariant info == Run(ZeroInfo, Map(LineEffect, lines[..n]))
    {
      assert lines[..n + 1] == lines[..n] + [lines[n]];
      MapAppend(LineEffect, lines[..n], [lines[n]]);
      info := ApplyLine(info, TrimSpace(lines[n]));
    }
    assert lines[..|lines|] == lines;
    return info, None;
  }

  /** The body of the parsing loop: one trimmed line updates the field its prefix
      names. */
  method ApplyLine(info0: TrackInfo, line: string) returns (info: TrackInfo)
    ensures info == Apply(info0, TrimmedEffect(line))
  {
    info := info0;
    if line == "" {
    } else if HasPrefix(line, ArtistPrefix) {
      info := info.(artist := TrimSpace(line[|ArtistPrefix|..]));
    } else if HasPrefix(line, TitlePrefix) {
      info := info.(title := TrimSpace(line[|TitlePrefix|..]));
    } else if HasPrefix(line, DurationPrefix) {
      var parts := Fields(line);
      if |parts| >= 2 {
        var v := Atoi(parts[1]);
        if v.Some? {
          info := info.(duration := v.value);
        }
      }
    } else if HasPrefix(line, PositionPrefix) {
      var parts := Fields(line);
      if |parts| >= 2 {
        var v := Atoi(parts[1]);
        if v.Some? {
          info := info.(current := v.value);
        }
      }
    }
  }

  /** Running two sequences of effects one after the other is running their
      concatenation. */
  lemma {:induction false} RunAppend(info: TrackInfo, a: seq<Effect>, b: seq<Effect>)
    ensures Run(info, a + b) == Run(Run(info, a), b)
    decreases |b|
  {
    if b == [] {
      assert a + b == a;
    } else {
      assert (a + b)[..|a + b| - 1] == a + b[..|b| - 1];
      RunAppend(info, a, b[..|b| - 1]);
    }
  }

  /** A field that no effect sets keeps its starting value. */
  lemma {:induction false} RunUnset(info: TrackInfo, es: seq<Effect>, f: Field)
    requires forall k :: 0 <= k < |es| ==> !Sets(es[k], f)
    ensures Get(Run(info, es), f) == Get(info, f)
    decreases |es|
  {
    if es != [] {
      RunUnset(info, es[..|es| - 1], f);
    }
  }

  /** Output made only of unrecognised lines yields the zero snapshot. */
  lemma AllIgnoredIsZero(lines: seq<string>)
    requires forall k :: 0 <= k < |lines| ==> LineEffect(lines[k]) == NoEffect
    ensures Fold(ZeroInfo, lines) == ZeroInfo
  {
    var es := Map(LineEffect, lines);
    forall f: Field ensures Get(Run(ZeroInfo, es), f) == Get(ZeroInfo, f) {
      RunUnset(ZeroInfo, es, f);
    }
    var r := Run(ZeroInfo, es);
    assert Get(r, Artist) == Get(ZeroInfo, Artist) && Get(r, Title) == Get(ZeroInfo, Title);
    assert Get(r, Duration) == Get(ZeroInfo, Duration) && Get(r, Current) == Get(ZeroInfo, Current);
  }

  /** Last value wins: the last line that sets a field decides its value. */
  lemma LastLineWins(info: TrackInfo, lines: seq<string>, k: nat, f: Field)
    requires k < |lines| && Sets(LineEffect(lines[k]), f)
    requires forall j :: k < j < |lines| ==> !Sets(LineEffect(lines[j]), f)
    ensures Get(Fold(info, lines), f) == LineEffect(lines[k]).value
  {
    LastEffectWins(info, Map(LineEffect, lines), k, f);
  }

  lemma LastEffectWins(info: TrackInfo, es: seq<Effect>, k: nat, f: Field)
    requires k < |es| && Sets(es[k], f) && WellTyped(f, es[k].value)
    requires forall j :: k < j < |es| ==> !Sets(es[j], f)
    ensures Get(Run(info, es), f) == es[k].value
  {
    var pre, post := es[..k + 1], es[k + 1..];
    assert es == pre + post;
    RunAppend(info, pre, post);
    assert pre[..|pre| - 1] == es[..k];
    RunUnset(Run(info, pre), post, f);
  }

  /** Two lines that do not set the same field can be swapped without changing the
      result. */
  lemma SwapLines(info: TrackInfo, a: seq<string>, l1: string, l2: string, b: seq<string>)
    requires !(LineEffect(l1).Set? && LineEffect(l2).Set? && LineEffect(l1).field == LineEffect(l2).field)
    ensures Fold(info, a + [l1, l2] + b) == Fold(info, a + [l2, l1] + b)
  {
    var e1, e2 := LineEffect(l1), LineEffect(l2);
    MapAppend(LineEffect, a + [l1, l2], b);
    MapAppend(LineEffect, a, [l1, l2]);
    MapAppend(LineEffect, a + [l2, l1], b);
    MapAppend(LineEffect, a, [l2, l1]);
    assert Map(LineEffect, [l1, l2]) == [e1, e2];
    assert Map(LineEffect, [l2, l1]) == [e2, e1];
    SwapEffects(info, Map(LineEffect, a), e1, e2, Map(LineEffect, b));
  }

  lemma SwapEffects(info: TrackInfo, a: seq<Effect>, e1: Effect, e2: Effect, b: seq<Effect>)
    requires !(e1.Set? && e2.Set? && e1.field == e2.field)
    ensures Run(info, a + [e1, e2] + b) == Run(info, a + [e2, e1] + b)
  {
    var x, y := a + [e1, e2], a + [e2, e1];
    assert x[..|x| - 1] == a + [e1] && (a + [e1])[..|a|] == a;
    assert y[..|y| - 1] == a + [e2] && (a + [e2])[..|a|] == a;
    var s := Run(info, a);
    assert Run(info, x) == Apply(Apply(s, e1), e2);
    assert Run(info, y) == Apply(Apply(s, e2), e1);
    ApplyCommute(s, e1, e2);
    RunAppend(info, x, b);
    RunAppend(info, y, b);
  }

  /** Effects on different fields commute. */
  lemma ApplyCommute(s: TrackInfo, e1: Effect, e2: Effect)
    requires !(e1.Set? && e2.Set? && e1.field == e2.field)
    ensures Apply(Apply(s, e1), e2) == Apply(Apply(s, e2), e1)
  {
    var x, y := Apply(Apply(s, e1), e2), Apply(Apply(s, e2), e1);
    assert Get(x, Artist) == Get(y, Artist) && Get(x, Title) == Get(y, Title);
    assert Get(x, Duration) == Get(y, Duration) && Get(x, Current) == Get(y, Current);
  }

  /** An artist line sets the artist to the trimmed remainder after the prefix. */
  lemma ArtistLine(rest: string)
    requires !AllSpace(rest)
    ensures LineEffect(ArtistPrefix + rest) == Set(Artist, Text(TrimSpace(rest)))
  {
    var tr := TrimRight(rest);
    assert TrimSpace(ArtistPrefix + rest) == ArtistPrefix + tr by {
      TaggedTrim(ArtistPrefix, rest);
    }
    assert TrimmedEffect(ArtistPrefix + tr) == Set(Artist, Text(TrimSpace(tr))) by {
      HasPrefixAppend(ArtistPrefix, tr);
      assert (ArtistPrefix + tr)[|ArtistPrefix|..] == tr;
    }
    TrimRightIdempotent(rest);
  }

  /** A title line sets the title to the trimmed remainder after the prefix. */
  lemma TitleLine(rest: string)
    requires !AllSpace(rest)
    ensures LineEffect(TitlePrefix + rest) == Set(Title, Text(TrimSpace(rest)))
  {
    var tr := TrimRight(rest);
    assert TrimSpace(TitlePrefix + rest) == TitlePrefix + tr by {
      TaggedTrim(TitlePrefix, rest);
    }
    assert TrimmedEffect(TitlePrefix + tr) == Set(Title, Text(TrimSpace(tr))) by {
      HasPrefixAppend(TitlePrefix, tr);
      TitleNotArtist(TitlePrefix + tr);
      assert (TitlePrefix + tr)[|TitlePrefix|..] == tr;
    }
    TrimRightIdempotent(rest);
  }

  /** Trimming a tagged line keeps the tag and trims the rest on the right. */
  lemma TaggedTrim(tag: string, rest: string)
    requires tag != [] && !IsSpace(tag[0]) && !AllSpace(rest)
    ensures TrimSpace(tag + rest) == tag + TrimRight(rest)
  {
    TrimRightAppend(tag, rest);
    var x := tag + TrimRight(rest);
    assert x[0] == tag[0];
  }

  /** A line that starts with the title tag does not start with the artist tag. */
  lemma TitleNotArtist(line: string)
    requires HasPrefix(line, TitlePrefix)
    ensures !HasPrefix(line, ArtistPrefix)
  {
    HasPrefixIff(line, TitlePrefix);
    HasPrefixIff(line, ArtistPrefix);
    assert line[4] == TitlePrefix[4];
  }

  /** A bare `tag artist` line, with nothing after it but whitespace, is ignored:
      the prefix test runs on the trimmed line, which has lost the prefix's space. */
  lemma BareArtistTagIgnored(pad: string)
    requires AllSpace(pad)
    ensures LineEffect("tag artist" + pad) == NoEffect
  {
    var tag := "tag artist";
    assert TrimSpace(tag + pad) == tag by {
      TrimRightSpaces(tag, pad);
      assert tag[0] == 't';
    }
    assert !HasPrefix(tag, TitlePrefix) by {
      HasPrefixIff(tag, TitlePrefix);
      assert tag[4] != TitlePrefix[4];
    }
    HeadMismatch(tag, DurationPrefix);
    HeadMismatch(tag, PositionPrefix);
  }

  /** A `duration` line followed by one word sets the duration when the word is an
      integer and is ignored otherwise. */
  lemma DurationLine(w: string)
    requires w != [] && NoSpace(w)
    ensures LineEffect(DurationPrefix + w)
         == if Atoi(w).Some? then Set(Duration, Number(Atoi(w).value)) else NoEffect
  {
    var line := DurationPrefix + w;
    assert LineEffect(line) == TrimmedEffect(line) by {
      TrimmedWord(DurationPrefix, w);
    }
    assert TrimmedEffect(line) == NumberEffect(Duration, line) by {
      HeadMismatch(line, ArtistPrefix);
      HeadMismatch(line, TitlePrefix);
      HasPrefixAppend(DurationPrefix, w);
    }
    assert Fields(line) == ["duration", w] by {
      assert line == "duration" + " " + w;
      TwoFields("duration", w);
    }
  }

  /** A `position` line followed by one word sets the position when the word is an
      integer and is ignored otherwise. */
  lemma PositionLine(w: string)
    requires w != [] && NoSpace(w)
    ensures LineEffect(PositionPrefix + w)
         == if Atoi(w).Some? then Set(Current, Number(Atoi(w).value)) else NoEffect
  {
    var line := PositionPrefix + w;
    assert LineEffect(line) == TrimmedEffect(line) by {
      TrimmedWord(PositionPrefix, w);
    }
    assert TrimmedEffect(line) == NumberEffect(Current, line) by {
      HeadMismatch(line, ArtistPrefix);
      HeadMismatch(line, TitlePrefix);
      HeadMismatch(line, DurationPrefix);
      HasPrefixAppend(PositionPrefix, w);
    }
    assert Fields(line) == ["position", w] by {
      assert line == "position" + " " + w;
      TwoFields("position", w);
    }
  }

  /** A prefix that starts with a non-space followed by a word is already trimmed. */
  lemma TrimmedWord(p: string, w: string)
    requires p != [] && !IsSpace(p[0]) && w != [] && NoSpace(w)
    ensures TrimSpace(p + w) == p + w
  {
    var line := p + w;
    assert line[0] == p[0] && line[|line| - 1] == w[|w| - 1];
    TrimSpaceOfTrimmed(line);
  }

  /** The four status lines of a playing track, followed by the empty piece after the
      final newline, build its artist, title, duration and position. The lines are
      those of the output after splitting at newlines; numbers are in `%d` form. */
  lemma StatusLines(artist: string, title: string, duration: nat, position: nat)
    requires !AllSpace(artist) && !AllSpace(title)
    ensures Fold(ZeroInfo, [ArtistPrefix + artist, TitlePrefix + title,
                            DurationPrefix + NatToDigits(duration), PositionPrefix + NatToDigits(position), ""])
         == TrackInfo(TrimSpace(artist), TrimSpace(title), duration, position)
  {
    ArtistLine(artist);
    TitleLine(title);
    NumberLine(Duration, duration);
    NumberLine(Current, position);
    StatusFold(ArtistPrefix + artist, TitlePrefix + title,
               DurationPrefix + NatToDigits(duration), PositionPrefix + NatToDigits(position),
               TrackInfo(TrimSpace(artist), TrimSpace(title), duration, position));
  }

  /** Four lines setting the four fields, then the empty line, build the snapshot of
      the values they set. */
  lemma StatusFold(l1: string, l2: string, l3: string, l4: string, r: TrackInfo)
    requires LineEffect(l1) == Set(Artist, Text(r.artist))
    requires LineEffect(l2) == Set(Title, Text(r.title))
    requires LineEffect(l3) == Set(Duration, Number(r.duration))
    requires LineEffect(l4) == Set(Current, Number(r.current))
    ensures Fold(ZeroInfo, [l1, l2, l3, l4, ""]) == r
  {
    FoldStep(ZeroInfo, [], l1, LineEffect(l1));
    assert [] + [l1] == [l1];
    FoldStep(ZeroInfo, [l1], l2, LineEffect(l2));
    assert [l1] + [l2] == [l1, l2];
    FoldStep(ZeroInfo, [l1, l2], l3, LineEffect(l3));
    assert [l1, l2] + [l3] == [l1, l2, l3];
    FoldStep(ZeroInfo, [l1, l2, l3], l4, LineEffect(l4));
    assert [l1, l2, l3] + [l4] == [l1, l2, l3, l4];
    EmptyLineIgnored();
    FoldStep(ZeroInfo, [l1, l2, l3, l4], "", NoEffect);
    assert [l1, l2, l3, l4] + [""] == [l1, l2, l3, l4, ""];
  }

  /** Folding one more line whose effect is known. */
  lemma FoldStep(info: TrackInfo, lines: seq<string>, l: string, e: Effect)
    requires LineEffect(l) == e
    ensures Fold(info, lines + [l]) == Apply(Fold(info, lines), e)
  {
    MapAppend(LineEffect, lines, [l]);
    var es := Map(LineEffect, lines) + [e];
    assert es[..|lines|] == Map(LineEffect, lines);
  }

  /** A `duration` or `position` line carrying a number in `%d` form sets that field. */
  lemma NumberLine(f: Field, n: nat)
    requires f == Duration || f == Current
    ensures LineEffect((if f == Duration then DurationPrefix else PositionPrefix) + NatToDigits(n))
         == Set(f, Number(n))
  {
    var d := NatToDigits(n);
    DigitsNoSpace(d);
    AtoiNatToDigits(n);
    if f == Duration {
      DurationLine(d);
    } else {
      PositionLine(d);
    }
  }

  lemma EmptyLineIgnored()
    ensures LineEffect("") == NoEffect
  {
  }

  lemma DigitsNoSpace(s: string)
    requires AllDigits(s)
    ensures NoSpace(s)
  {
  }
}
