/** The LRC reader of tui.go (duplicated in main.go): timestamped lyric lines such as
    `[00:10.00][00:12.50]Some text` become one entry per timestamp, sorted by time
    with an insertion sort that keeps lines with equal times in input order. */
module Lrc {
  import opened Wrappers
  import opened GoStrings
  import opened Seqs

  /** A lyric line shown from `seconds` into the track on. */
  datatype SyncedLine = SyncedLine(seconds: int, text: string)

  // ---------------------------------------------------------------------------
  // Timestamps

  /** The value of the text between `[` and `]`: exactly one `:`, an integer number of
      minutes before it and an integer number of seconds after it, where everything
      from the first `.` on (the fraction) is ignored. */
  function ParseStamp(stamp: string): Option<int> {
    var parts := Split(stamp, ':');
    if |parts| != 2 then None else Total(Atoi(parts[0]), Atoi(Before(parts[1], '.')))
  }

  /** `minutes * 60 + seconds` when both were read. */
  function Total(minutes: Option<int>, seconds: Option<int>): Option<int> {
    if minutes.Some? && seconds.Some? then Some(minutes.value * 60 + seconds.value) else None
  }

  /** A token split at `:` into two parts is read from those parts. */
  lemma ParseStampParts(stamp: string, m: string, sec: string)
    requires Split(stamp, ':') == [m, sec]
    ensures ParseStamp(stamp) == Total(Atoi(m), Atoi(Before(sec, '.')))
  {
  }

  /** The bracketed tokens at the head of a trimmed line and the text after them. A
      `[` without a matching `]` ends the tokens and stays in the text. */
  function Tokens(rest: string): (r: (seq<string>, string))
    decreases |rest|
  {
    if !HasPrefix(rest, "[") then ([], rest)
    else
      match IndexOf(rest, ']')
      case None => ([], rest)
      case Some(e) =>
        var next := Tokens(TrimSpace(rest[e + 1..]));
        ([rest[1..e]] + next.0, next.1)
  }

  /** The timestamps a token contributes: its value, or none when it is invalid. */
  function Kept(v: Option<int>): (r: seq<int>)
    ensures |r| <= 1
  {
    match v
    case Some(t) => [t]
    case None => []
  }

  /** The timestamps one token contributes. */
  function TokenValue(token: string): seq<int> {
    Kept(ParseStamp(token))
  }

  /** The values of the valid timestamps among `tokens`, in order; invalid tokens are
      dropped. */
  function StampValues(tokens: seq<string>): seq<int> {
    Flatten(Map(TokenValue, tokens))
  }

  lemma StampValuesSnoc(tokens: seq<string>, t: string)
    ensures StampValues(tokens + [t]) == StampValues(tokens) + Kept(ParseStamp(t))
  {
    MapAppend(TokenValue, tokens, [t]);
    assert Map(TokenValue, [t]) == [TokenValue(t)];
    FlattenSnoc(Map(TokenValue, tokens), TokenValue(t));
  }

  lemma StampValuesCons(t: string, tokens: seq<string>)
    ensures StampValues([t] + tokens) == Kept(ParseStamp(t)) + StampValues(tokens)
  {
    MapAppend(TokenValue, [t], tokens);
    assert Map(TokenValue, [t]) == [TokenValue(t)];
    FlattenCons(TokenValue(t), Map(TokenValue, tokens));
  }

  /** One step of `Tokens` on a line that starts with a closed bracket. */
  lemma TokensStep(rest: string, e: nat)
    requires HasPrefix(rest, "[") && IndexOf(rest, ']') == Some(e)
    ensures 1 <= e < |rest|
    ensures Tokens(rest)
         == ([rest[1..e]] + Tokens(TrimSpace(rest[e + 1..])).0, Tokens(TrimSpace(rest[e + 1..])).1)
  {
    assert rest[0] == '[';
  }

  /** The loop invariant of `ExtractStamps` carried past one closed bracket. */
  lemma TokensAdvance(line: string, tokens: seq<string>, rest: string, e: nat)
    requires Tokens(line) == (tokens + Tokens(rest).0, Tokens(rest).1)
    requires HasPrefix(rest, "[") && IndexOf(rest, ']') == Some(e)
    ensures 1 <= e < |rest|
    ensures Tokens(line)
         == (tokens + [rest[1..e]] + Tokens(TrimSpace(rest[e + 1..])).0, Tokens(TrimSpace(rest[e + 1..])).1)
  {
    TokensStep(rest, e);
    var next := Tokens(TrimSpace(rest[e + 1..]));
    assert tokens + [rest[1..e]] + next.0 == tokens + ([rest[1..e]] + next.0);
  }

  /** The entries one raw line contributes: one per valid timestamp, all with the
      trimmed text after the timestamps. */
  function LineEntries(raw: string): seq<SyncedLine> {
    var line := TrimSpace(raw);
    if line == "" then []
    else
      var (tokens, rest) := Tokens(line);
      Stamp(StampValues(tokens), TrimSpace(rest))
  }

  /** One entry per timestamp, in timestamp order, all with text `text`. */
  function Stamp(stamps: seq<int>, text: string): (r: seq<SyncedLine>)
    ensures |r| == |stamps|
    ensures forall k :: 0 <= k < |r| ==> r[k] == SyncedLine(stamps[k], text)
  {
    seq(|stamps|, k requires 0 <= k < |stamps| => SyncedLine(stamps[k], text))
  }

  lemma StampSnoc(stamps: seq<int>, k: nat, text: string)
    requires k < |stamps|
    ensures Stamp(stamps[..k + 1], text) == Stamp(stamps[..k], text) + [SyncedLine(stamps[k], text)]
  {
  }

  /** The entries of the lines in input order, before sorting. */
  function Entries(lines: seq<string>): seq<SyncedLine> {
    Flatten(Map(LineEntries, lines))
  }

  /** The entries of a whole lyrics text, before sorting. */
  function Emitted(s: string): seq<SyncedLine> {
    Entries(Split(s, '\n'))
  }

  /** The timestamp loop of `ParseSyncedLyrics`: while the rest of the line starts
      with `[`, read up to the first `]`, keep the token's value when it is a valid
      timestamp and continue with the trimmed text after the `]`. */
  method ExtractStamps(line: string) returns (stamps: seq<int>, rest: string)
    ensures stamps == StampValues(Tokens(line).0)
    ensures rest == Tokens(line).1
  {
    stamps, rest := [], line;
    ghost var tokens: seq<string> := [];
    assert [] + Tokens(line).0 == Tokens(line).0;
    while HasPrefix(rest, "[")
      invariant Tokens(line) == (tokens + Tokens(rest).0, Tokens(rest).1)
      invariant stamps == StampValues(tokens)
      decreases |rest|
    {
      var end := IndexOf(rest, ']');
      if end.None? {
        break;
      }
      var e := end.value;
      TokensAdvance(line, tokens, rest, e);
      var token := rest[1..e];
      var own := ReadStamp(token);
      StampValuesSnoc(tokens, token);
      tokens, stamps, rest := tokens + [token], stamps + own, TrimSpace(rest[e + 1..]);
    }
    assert Tokens(rest) == ([], rest);
    assert tokens + [] == tokens;
  }

  /** The timestamp test inside the loop: split at `:`, exactly two parts, both
      integers once the fraction after `.` is cut off. */
  method ReadStamp(stamp: string) returns (own: seq<int>)
    ensures own == Kept(ParseStamp(stamp))
  {
    own := [];
    var parts := Split(stamp, ':');
    if |parts| == 2 {
      var m := Atoi(parts[0]);
      var sec := Atoi(Before(parts[1], '.'));
      if m.Some? && sec.Some? {
        own := [m.value * 60 + sec.value];
      }
    }
  }

  /** `ParseSyncedLyrics`: the entries of every line, one per timestamp, sorted by
      time. The result is sorted, holds exactly the entries of the text, and keeps
      entries with equal times in input order. The source's error result is always
      nil and is not modelled. */
  method ParseSyncedLyrics(s: string) returns (out: seq<SyncedLine>)
    ensures out == SortByTime(Emitted(s))
    ensures Sorted(out)
    ensures multiset(out) == multiset(Emitted(s))
    ensures forall t :: AtTime(out, t) == AtTime(Emitted(s), t)
  {
    var lines := Split(s, '\n');
    var acc: seq<SyncedLine> := [];
    for n := 0 to |lines|
      invariant acc == Entries(lines[..n])
    {
      assert lines[..n + 1] == lines[..n] + [lines[n]];
      MapAppend(LineEntries, lines[..n], [lines[n]]);
      FlattenSnoc(Map(LineEntries, lines[..n]), LineEntries(lines[n]));
      acc := AppendLine(acc, lines[n]);
    }
    assert lines[..|lines|] == lines;
    out := SortEntries(acc);
  }

  /** The body of the line loop: a blank line or a line without valid timestamps adds
      nothing; otherwise one entry per timestamp is appended. */
  method AppendLine(acc0: seq<SyncedLine>, raw: string) returns (acc: seq<SyncedLine>)
    ensures acc == acc0 + LineEntries(raw)
  {
    acc := acc0;
    var line := TrimSpace(raw);
    if line == "" {
      return;
    }
    var stamps, rest := ExtractStamps(line);
    if |stamps| == 0 {
      return;
    }
    var text := TrimSpace(rest);
    for k := 0 to |stamps|
      invariant acc == acc0 + Stamp(stamps[..k], text)
    {
      StampSnoc(stamps, k, text);
      acc := acc + [SyncedLine(stamps[k], text)];
    }
    assert stamps[..|stamps|] == stamps;
  }

  /** The sort at the end of `ParseSyncedLyrics`: the entries are copied into an array
      and sorted there by time. */
  method SortEntries(entries: seq<SyncedLine>) returns (out: seq<SyncedLine>)
    ensures out == SortByTime(entries)
    ensures Sorted(out)
    ensures multiset(out) == multiset(entries)
    ensures forall t :: AtTime(out, t) == AtTime(entries, t)
  {
    var a := new SyncedLine[|entries|](i requires 0 <= i < |entries| => entries[i]);
    assert a[..] == entries;
    SortInPlace(a);
    out := a[..];
    SortSorted(entries);
    SortPerm(entries);
    forall t ensures AtTime(out, t) == AtTime(entries, t) {
      SortStable(entries, t);
    }
  }

  // ---------------------------------------------------------------------------
  // What one line contributes

  /** A closed bracket token is always consumed: a valid timestamp contributes its
      value, an invalid one nothing, and extraction goes on with the trimmed text after
      the `]`. */
  lemma TokenConsumed(rest: string, e: nat)
    requires HasPrefix(rest, "[") && IndexOf(rest, ']') == Some(e)
    ensures 1 <= e < |rest|
    ensures StampValues(Tokens(rest).0)
         == Kept(ParseStamp(rest[1..e])) + StampValues(Tokens(TrimSpace(rest[e + 1..])).0)
    ensures Tokens(rest).1 == Tokens(TrimSpace(rest[e + 1..])).1
  {
    TokensStep(rest, e);
    StampValuesCons(rest[1..e], Tokens(TrimSpace(rest[e + 1..])).0);
  }

  /** A line that does not start with `[`, or whose `[` is never closed, has no
      tokens and is all text; such a line contributes no entries. */
  lemma NoTokens(raw: string)
    requires !HasPrefix(TrimSpace(raw), "[") || ']' !in TrimSpace(raw)
    ensures Tokens(TrimSpace(raw)) == ([], TrimSpace(raw))
    ensures LineEntries(raw) == []
  {
  }

  /** A line contributes one entry per valid timestamp, in the order of the
      timestamps, all with the same trimmed text. */
  lemma LineEntriesStamps(raw: string)
    ensures var stamps := StampValues(Tokens(TrimSpace(raw)).0);
            |LineEntries(raw)| == |stamps| &&
            forall k :: 0 <= k < |stamps| ==>
              LineEntries(raw)[k] == SyncedLine(stamps[k], TrimSpace(Tokens(TrimSpace(raw)).1))
  {
    if TrimSpace(raw) == "" {
      NoTokens(raw);
    }
  }

  /** A timestamp is `minutes * 60 + seconds`, whatever follows the first `.` of the
      seconds: the fraction is cut off, not rounded. */
  lemma FractionIgnored(m: string, sec: string, frac: string)
    requires ':' !in m && ':' !in sec && '.' !in sec && ':' !in frac
    ensures ParseStamp(m + ":" + sec + "." + frac) == ParseStamp(m + ":" + sec)
  {
    var tail := sec + "." + frac;
    assert m + ":" + sec + "." + frac == m + [':'] + tail;
    assert m + ":" + sec == m + [':'] + sec;
    assert ':' !in tail by {
      assert forall i :: 0 <= i < |tail| ==> tail[i] == (if i < |sec| then sec[i] else if i == |sec| then '.' else frac[i - |sec| - 1]);
    }
    SplitAfterFirst(m, ':', tail);
    SplitAfterFirst(m, ':', sec);
    SplitWithout(tail, ':');
    SplitWithout(sec, ':');
    assert tail == sec + ['.'] + frac;
    BeforeFirst(sec, '.', frac);
    ParseStampParts(m + ":" + sec + "." + frac, m, tail);
    ParseStampParts(m + ":" + sec, m, sec);
  }

  /** A token with one `:` and no `.` after it is read from the two sides. */
  lemma StampOfSides(stamp: string, m: string, sec: string)
    requires stamp == m + [':'] + sec
    requires ':' !in m && ':' !in sec && '.' !in sec
    ensures ParseStamp(stamp) == Total(Atoi(m), Atoi(sec))
  {
    SplitAfterFirst(m, ':', sec);
    SplitWithout(sec, ':');
    ParseStampParts(stamp, m, sec);
  }

  /** Digits, a `:` and digits make the timestamp `minutes * 60 + seconds`. */
  lemma StampValue(m: string, sec: string)
    requires m != [] && sec != [] && AllDigits(m) && AllDigits(sec)
    ensures ParseStamp(m + ":" + sec) == Some(DigitsValue(m) * 60 + DigitsValue(sec))
  {
    assert ':' !in m && ':' !in sec && '.' !in sec by {
      assert forall i :: 0 <= i < |m| ==> IsDigit(m[i]);
      assert forall i :: 0 <= i < |sec| ==> IsDigit(sec[i]);
    }
    assert m + ":" + sec == m + [':'] + sec;
    SplitAfterFirst(m, ':', sec);
    SplitWithout(sec, ':');
    ParseStampParts(m + ":" + sec, m, sec);
    AtoiDigits(m);
    AtoiDigits(sec);
  }

  /** A leading closed token is read off a line and the rest of the line is read on,
      when that rest needs no trimming. */
  lemma TokenThen(line: string, token: string, rest: string)
    requires line == "[" + token + "]" + rest
    requires ']' !in token && Trimmed(rest)
    ensures Tokens(line) == ([token] + Tokens(rest).0, Tokens(rest).1)
  {
    var e := |token| + 1;
    assert HasPrefix(line, "[") by {
      assert line == "[" + (token + "]" + rest);
      HasPrefixAppend("[", token + "]" + rest);
    }
    assert IndexOf(line, ']') == Some(e) by {
      assert line[e] == ']';
      assert forall j :: 0 <= j < e ==> line[j] == (if j == 0 then '[' else token[j - 1]);
    }
    assert line[1..e] == token;
    assert line[e + 1..] == rest;
    TrimSpaceOfTrimmed(rest);
    TokensStep(line, e);
  }

  /** The values of two valid timestamps, in order. */
  lemma TwoValues(t1: string, v1: int, t2: string, v2: int)
    requires ParseStamp(t1) == Some(v1) && ParseStamp(t2) == Some(v2)
    ensures StampValues([t1, t2]) == [v1, v2]
  {
    StampValuesCons(t1, [t2]);
    StampValuesCons(t2, []);
    assert [t1] + [t2] == [t1, t2] && [t2] + [] == [t2];
    assert StampValues([]) == [] by {
      assert Map(TokenValue, []) == [];
    }
  }

  /** The line `[t1][t2]text` holds the two tokens and then the text. */
  lemma TwoTokens(line: string, t1: string, t2: string, text: string)
    requires line == "[" + t1 + "]" + "[" + t2 + "]" + text
    requires ']' !in t1 && ']' !in t2
    requires text != [] && Trimmed(text) && text[0] != '['
    ensures Tokens(line) == ([t1, t2], text)
  {
    var second := "[" + t2 + "]" + text;
    assert line == "[" + t1 + "]" + second;
    assert Trimmed(second) by {
      assert second[|second| - 1] == text[|text| - 1];
    }
    assert Tokens(second) == ([t2], text) by {
      HeadMismatch(text, "[");
      TokenThen(second, t2, text);
      assert Tokens(text) == ([], text);
      assert [t2] + [] == [t2];
    }
    TokenThen(line, t1, second);
    assert [t1] + [t2] == [t1, t2];
  }

  /** The line `[t1][t2]text` gives the entries of its two tokens, in order, with the
      text. */
  lemma TwoStampLine(t1: string, t2: string, text: string)
    requires ']' !in t1 && ']' !in t2
    requires text != [] && Trimmed(text) && text[0] != '['
    ensures LineEntries("[" + t1 + "]" + "[" + t2 + "]" + text) == Stamp(StampValues([t1, t2]), text)
  {
    var line := "[" + t1 + "]" + "[" + t2 + "]" + text;
    TwoTokens(line, t1, t2, text);
    assert Trimmed(line) by {
      assert line[|line| - 1] == text[|text| - 1];
    }
    TrimSpaceOfTrimmed(line);
    TrimSpaceOfTrimmed(text);
  }

  /** With two valid timestamps that is two entries sharing the text, in stamp order
      (for instance `[00:10.00][00:12.50]Some text`). */
  lemma TwoStampEntries(t1: string, v1: int, t2: string, v2: int, text: string)
    requires ParseStamp(t1) == Some(v1) && ParseStamp(t2) == Some(v2)
    requires ']' !in t1 && ']' !in t2
    requires text != [] && Trimmed(text) && text[0] != '['
    ensures LineEntries("[" + t1 + "]" + "[" + t2 + "]" + text) == [SyncedLine(v1, text), SyncedLine(v2, text)]
  {
    TwoStampLine(t1, t2, text);
    TwoValues(t1, v1, t2, v2);
  }

  /** The lines of a text are read in order: the first line's entries come first. */
  lemma EmittedCons(first: string, rest: string)
    requires '\n' !in first
    ensures Emitted(first + "\n" + rest) == LineEntries(first) + Emitted(rest)
  {
    assert first + "\n" + rest == first + ['\n'] + rest;
    SplitAfterFirst(first, '\n', rest);
    MapAppend(LineEntries, [first], Split(rest, '\n'));
    assert Map(LineEntries, [first]) == [LineEntries(first)];
    FlattenCons(LineEntries(first), Map(LineEntries, Split(rest, '\n')));
  }

  // ---------------------------------------------------------------------------
  // Sorting

  predicate Sorted(xs: seq<SyncedLine>) {
    forall i, j :: 0 <= i < j < |xs| ==> xs[i].seconds <= xs[j].seconds
  }

  /** `x` placed into `xs` by moving it left past every element with a larger time,
      as one pass of the inner insertion loop does. */
  function Insert(xs: seq<SyncedLine>, x: SyncedLine): (r: seq<SyncedLine>)
    ensures |r| == |xs| + 1
  {
    if xs == [] || xs[|xs| - 1].seconds <= x.seconds then xs + [x]
    else Insert(xs[..|xs| - 1], x) + [xs[|xs| - 1]]
  }

  /** Insertion sort by time: each element in turn is inserted into the sorted prefix
      before it. */
  function SortByTime(xs: seq<SyncedLine>): (r: seq<SyncedLine>)
    ensures |r| == |xs|
  {
    if xs == [] then [] else Insert(SortByTime(xs[..|xs| - 1]), xs[|xs| - 1])
  }

  /** The entries with time `t`, in order. */
  function AtTime(xs: seq<SyncedLine>, t: int): (r: seq<SyncedLine>)
    ensures |r| <= |xs|
  {
    if xs == [] then []
    else AtTime(xs[..|xs| - 1], t) + (if xs[|xs| - 1].seconds == t then [xs[|xs| - 1]] else [])
  }

  lemma {:induction false} AtTimeAppend(a: seq<SyncedLine>, b: seq<SyncedLine>, t: int)
    ensures AtTime(a + b, t) == AtTime(a, t) + AtTime(b, t)
    decreases |b|
  {
    if b == [] {
      assert a + b == a;
    } else {
      assert (a + b)[..|a + b| - 1] == a + b[..|b| - 1];
      AtTimeAppend(a, b[..|b| - 1], t);
    }
  }

  /** Inserting into a sorted sequence keeps it sorted. */
  lemma {:induction false} InsertSorted(xs: seq<SyncedLine>, x: SyncedLine)
    requires Sorted(xs)
    ensures Sorted(Insert(xs, x))
    ensures Insert(xs, x) != [] && Insert(xs, x)[|xs|].seconds == if xs != [] && xs[|xs| - 1].seconds > x.seconds then xs[|xs| - 1].seconds else x.seconds
  {
    if xs == [] || xs[|xs| - 1].seconds <= x.seconds {
    } else {
      InsertSorted(xs[..|xs| - 1], x);
    }
  }

  /** Inserting adds exactly `x`. */
  lemma {:induction false} InsertPerm(xs: seq<SyncedLine>, x: SyncedLine)
    ensures multiset(Insert(xs, x)) == multiset(xs) + multiset{x}
  {
    if xs == [] || xs[|xs| - 1].seconds <= x.seconds {
    } else {
      var init := xs[..|xs| - 1];
      InsertPerm(init, x);
      assert xs == init + [xs[|xs| - 1]];
    }
  }

  /** Inserting keeps the entries of every time in their order, and `x` comes after
      those of its own time. */
  lemma {:induction false} InsertStable(xs: seq<SyncedLine>, x: SyncedLine, t: int)
    ensures AtTime(Insert(xs, x), t) == AtTime(xs, t) + AtTime([x], t)
  {
    if xs == [] || xs[|xs| - 1].seconds <= x.seconds {
      AtTimeAppend(xs, [x], t);
    } else {
      var init, last := xs[..|xs| - 1], xs[|xs| - 1];
      InsertStable(init, x, t);
      AtTimeAppend(Insert(init, x), [last], t);
      AtTimeAppend(init, [last], t);
      assert xs == init + [last];
      assert [x][..0] == [] && [last][..0] == [];
    }
  }

  /** The sort yields a sorted sequence. */
  lemma {:induction false} SortSorted(xs: seq<SyncedLine>)
    ensures Sorted(SortByTime(xs))
  {
    if xs != [] {
      SortSorted(xs[..|xs| - 1]);
      InsertSorted(SortByTime(xs[..|xs| - 1]), xs[|xs| - 1]);
    }
  }

  /** The sort yields a permutation of its input. */
  lemma {:induction false} SortPerm(xs: seq<SyncedLine>)
    ensures multiset(SortByTime(xs)) == multiset(xs)
  {
    if xs != [] {
      var init := xs[..|xs| - 1];
      SortPerm(init);
      InsertPerm(SortByTime(init), xs[|xs| - 1]);
      assert xs == init + [xs[|xs| - 1]];
    }
  }

  /** The sort is stable: for every time, the entries with that time keep their input
      order. With `SortSorted` this pins the result down completely. */
  lemma {:induction false} SortStable(xs: seq<SyncedLine>, t: int)
    ensures AtTime(SortByTime(xs), t) == AtTime(xs, t)
  {
    if xs != [] {
      var init, last := xs[..|xs| - 1], xs[|xs| - 1];
      assert xs == init + [last];
      assert SortByTime(xs) == Insert(SortByTime(init), last);
      SortStable(init, t);
      InsertStable(SortByTime(init), last, t);
      AtTimeAppend(init, [last], t);
    }
  }

  /** Where the inner loop stops: every element after position `j` has a larger time
      than `x` and the one before it (if any) does not, so `x` belongs at `j`. */
  lemma {:induction false} InsertAt(p: seq<SyncedLine>, x: SyncedLine, j: nat)
    requires j <= |p|
    requires forall k :: j <= k < |p| ==> p[k].seconds > x.seconds
    requires j == 0 || p[j - 1].seconds <= x.seconds
    ensures Insert(p, x) == p[..j] + [x] + p[j..]
    decreases |p|
  {
    if j == |p| {
      assert p[..j] == p && p[j..] == [];
    } else {
      var init := p[..|p| - 1];
      InsertAt(init, x, j);
      assert init[..j] == p[..j];
      assert init[j..] + [p[|p| - 1]] == p[j..];
    }
  }

  /** The insertion sort of the source, in place: each entry in turn is moved left
      past the entries with a larger time. */
  method SortInPlace(a: array<SyncedLine>)
    modifies a
    ensures a[..] == SortByTime(old(a[..]))
  {
    ghost var input := a[..];
    if a.Length > 1 {
      assert input[..1] == [] + [input[0]];
      assert input[..1][..0] == [];
      for i := 1 to a.Length
        invariant a[..i] == SortByTime(input[..i])
        invariant a[i..] == input[i..]
      {
        ghost var before := a[..];
        assert before[i..] == input[i..];
        assert before[i] == input[i] && before[..i] == SortByTime(input[..i]);
        SinkLast(a, i);
        assert a[i + 1..] == before[i + 1..] == input[i + 1..];
        assert input[..i + 1][..i] == input[..i];
        assert a[..i + 1] == SortByTime(input[..i + 1]);
      }
    }
    assert a[..] == a[..a.Length];
    assert input == input[..a.Length];
  }

  /** The inner loop: `a[i]` is swapped left while its left neighbour has a larger
      time, which inserts it into `a[..i]`. */
  method SinkLast(a: array<SyncedLine>, i: nat)
    requires i < a.Length
    modifies a
    ensures a[..i + 1] == Insert(old(a[..i]), old(a[i]))
    ensures a[i + 1..] == old(a[i + 1..])
  {
    ghost var p, x := a[..i], a[i];
    var j := i;
    while j > 0 && a[j - 1].seconds > a[j].seconds
      invariant 0 <= j <= i
      invariant a[j] == x
      invariant forall k :: 0 <= k < j ==> a[k] == p[k]
      invariant forall k :: j < k <= i ==> a[k] == p[k - 1]
      invariant forall k :: i < k < a.Length ==> a[k] == old(a[k])
      invariant forall k :: j <= k < i ==> p[k].seconds > x.seconds
    {
      a[j - 1], a[j] := a[j], a[j - 1];
      j := j - 1;
    }
    ghost var r := p[..j] + [x] + p[j..];
    forall k | 0 <= k <= i
      ensures a[k] == r[k]
    {
      if k < j {
        assert r[k] == p[k];
      } else if k > j {
        assert r[k] == p[k - 1];
      }
    }
    assert a[..i + 1] == r;
    assert a[i + 1..] == old(a[i + 1..]);
    InsertAt(p, x, j);
  }
}
