# goraoke core, modelled in Dafny

goraoke is a terminal karaoke display for the cmus music player. Every half second it
polls the player with `cmus-remote -Q` and parses the status text into a track snapshot
(artist, title, duration and position in seconds). When the track changes it looks the
lyric up in a local SQLite lyrics database. It parses the LRC-style synced lyrics into
time-stamped lines, sorted by time. It then shows a seven-line window around the line
being sung, or the plain lyrics when there are no synced lines.

The repository has two copies of this logic:

- the split files `cmus.go`, `db.go` and `tui.go`;
- the single file `main.go`.

They differ in three places:

- `db.go` normalises the queried title.
- `main.go` caps the plain-lyrics fallback at seven lines.
- The two `View`s use different lyric placeholders.

The model covers both copies. `Variants.Variant` selects `Modular` (the split files) or
`Monolithic` (`main.go`).

Modules:

- `GoStrings`: the Go standard-library string functions the core relies on, over
  `seq<char>`. Covers `TrimSpace`, `HasPrefix`, `Index`, `Split`, `SplitN(…, 2)[0]`,
  `Fields`, `ToLower` and `strconv.Atoi`, with their properties.
- `Seqs`: generic `Map` and `Flatten`.
- `Cmus`: `ParseCmusOutput`. The output is modelled as a fold of per-line effects over
  the zero snapshot.
- `Lrc`: `ParseSyncedLyrics`.
  - Timestamp extraction is a method proved against the functional `Tokens` /
    `StampValues` specification.
  - The insertion sort runs in place on an `array`. It is proved to compute
    `SortByTime`, which is sorted, a permutation and stable.
- `Playback`:
  - the current-line scan, `currentLyricIndex`;
  - the lyric window, `lyricWindow`;
  - the clock format, `formatTime`, with Go's truncating `/` and `%`;
  - the cache key, `cacheKey`.
- `Db`: `queryLyrics`, over a database modelled as a function from query to answer.
- `Sync`: the Bubble Tea model.
  - `Sync.Model` is a class whose `Update` changes the fields in place. It is proved to
    follow `Next`, the update on values.
  - `Sync.View` draws the screen.

## Model

| member | source | states |
|---|---|---|
| Cmus.ParseCmusOutput | cmus.go:20-67 | Blank output (all whitespace) is the `empty output` error with the zero snapshot. Any other output succeeds with the snapshot its newline-separated lines build in order from the zero snapshot. |
| Cmus.ApplyLine | cmus.go:28-63 | One trimmed line sets the field its prefix names and nothing else. The prefixes are tried in source order. A `duration`/`position` line without a second field or with a non-integer keeps the old value. |
| Cmus.AllIgnoredIsZero | cmus.go:26-64 | Output whose every line is unrecognised leaves every field at its zero value. |
| Cmus.LastLineWins | cmus.go:26-64 | When several lines set a field, the last one that sets it decides its value. |
| Cmus.SwapLines | cmus.go:26-64 | Two adjacent lines that do not set the same field can be exchanged without changing the snapshot. |
| Cmus.RunUnset | cmus.go:26-64 | A field that no line sets keeps its starting value. |
| Cmus.ArtistLine | cmus.go:34-37 | `tag artist X` sets the artist to `X` trimmed, when `X` is not blank. |
| Cmus.TitleLine | cmus.go:38-41 | `tag title X` sets the title to `X` trimmed, when `X` is not blank. |
| Cmus.BareArtistTagIgnored | cmus.go:28-37 | `tag artist` followed only by whitespace is trimmed to `tag artist`. That no longer has the `tag artist ` prefix, so the line sets nothing. |
| Cmus.DurationLine | cmus.go:44-52 | `duration W` sets the duration to `Atoi(W)` when `W` is an integer, and otherwise leaves it alone. |
| Cmus.PositionLine | cmus.go:55-63 | `position W` sets the position to `Atoi(W)` when `W` is an integer, and otherwise leaves it alone. |
| Cmus.NumberLine | cmus.go:44-63 | A `duration` or `position` line carrying a decimal number sets that field to the number. |
| Cmus.StatusLines | cmus.go:20-67 | The four status lines of a playing track, newline-terminated, yield exactly its trimmed artist, trimmed title, duration and position. |
| Cmus.EmptyLineIgnored | cmus.go:29-31 | An empty line has no effect. |
| GoStrings.TrimSpaceEmpty | cmus.go:22 | `TrimSpace(s)` is empty exactly when `s` is all whitespace. |
| GoStrings.TrimSpaceIdempotent | cmus.go:28 | Trimming twice is trimming once. |
| GoStrings.TrimSpaceAround | db.go:23 | Trimming a string with a non-space character inside trims the part before it on the left only and the part after it on the right only. |
| GoStrings.TrimSpaceLower | tui.go:255 | Trimming and ASCII lower-casing commute. |
| GoStrings.HasPrefixIff | cmus.go:34 | `HasPrefix(s, p)` holds exactly when `p` is the first `|p|` characters of `s`. |
| GoStrings.IndexOf | tui.go:273 | `Index` finds the first occurrence of the character, or reports none exactly when the character is absent. |
| GoStrings.JoinSplit | tui.go:263 | Joining the pieces of `Split` with the separator gives back the string. |
| GoStrings.SplitAfterFirst | tui.go:278 | Splitting at a separator first splits off the part before it. |
| GoStrings.BeforeFirst | tui.go:282-283 | `SplitN(s, c, 2)[0]` is the text before the first `c`. |
| GoStrings.TwoFields | cmus.go:45 | `Fields` of two words joined by a space gives those two words. |
| GoStrings.AtoiNatToDigits | cmus.go:47 | `Atoi` reads back the decimal digits of any natural number. |
| GoStrings.AtoiDigits | tui.go:280 | A non-empty digit string reads as its decimal value. |
| Seqs.FlattenCons | tui.go:264-298 | Concatenating per-line entries: the first line's entries come first. |
| Lrc.ExtractStamps | tui.go:270-290 | The timestamp loop returns the values of the stamps that parse, in order. It also returns the rest of the line after the last bracketed token. Both are given by the `Tokens` specification. |
| Lrc.ReadStamp | tui.go:277-288 | One bracketed token adds `min*60 + sec` when it is `min:sec[.frac]` with two integers, and adds nothing otherwise. |
| Lrc.AppendLine | tui.go:264-297 | One raw line appends one entry per parsed stamp, all carrying the trimmed text. Blank lines and lines with no parsed stamp append nothing. |
| Lrc.ParseSyncedLyrics | tui.go:261-311 | The result is the entries of every line, sorted by time. It is sorted, a permutation of the entries, and keeps the input order of entries with equal times. |
| Lrc.SortEntries | tui.go:299-309 | Sorting yields `SortByTime` of the entries: sorted, a permutation, and stable. |
| Lrc.SortInPlace | tui.go:302-308 | The in-place insertion sort leaves the array holding `SortByTime` of its old contents. |
| Lrc.SinkLast | tui.go:303-307 | Sinking element `i` inserts it into the sorted prefix before it and leaves the suffix alone. |
| Lrc.SortSorted | tui.go:299-309 | `SortByTime` is ordered by seconds. |
| Lrc.SortPerm | tui.go:299-309 | `SortByTime` is a permutation of its input. |
| Lrc.SortStable | tui.go:302-308 | Entries with the same time stay in input order, because the loop only swaps on a strict `>`. |
| Lrc.InsertSorted | tui.go:303-307 | Inserting into a sorted sequence keeps it sorted. |
| Lrc.InsertPerm | tui.go:303-307 | Inserting adds exactly the one element. |
| Lrc.InsertStable | tui.go:303-307 | The inserted element goes after every element with the same time. |
| Lrc.InsertAt | tui.go:303-307 | The element lands just after the last element not later than it. |
| Lrc.AtTimeAppend | tui.go:295-297 | The entries at a time of a concatenation are those of each part, in order. |
| Lrc.NoTokens | tui.go:272-276 | A line that does not start with `[`, or has no `]`, yields no stamps and so no entries. |
| Lrc.LineEntriesStamps | tui.go:291-297 | A line yields one entry per parsed stamp, in stamp order, each with the trimmed rest as text. |
| Lrc.TokenConsumed | tui.go:272-289 | A bracketed token is consumed up to its first `]`, and scanning continues on the trimmed remainder. |
| Lrc.TokensAdvance | tui.go:272-289 | The loop invariant of the timestamp scan: the tokens seen so far, then those of the remaining text. |
| Lrc.FractionIgnored | tui.go:281-283 | A fraction after `.` does not change the stamp: fractional seconds are truncated. |
| Lrc.StampOfSides | tui.go:278-285 | A stamp with exactly one `:` and no `.` is `min*60 + sec` of the two sides read by `Atoi`, or nothing when either side is not an integer. |
| Lrc.StampValue | tui.go:278-285 | A stamp `mm:ss` of digits is worth `mm*60 + ss` seconds. |
| Lrc.TwoTokens | tui.go:272-290 | `[t1][t2]text` yields the tokens `t1`, `t2` and the text. |
| Lrc.TwoStampEntries | tui.go:258-260 | `[00:10.00][00:12.50]Some text` style lines repeat the text once per parsed stamp. |
| Lrc.EmittedCons | tui.go:263-264 | The entries of a text are those of its first line followed by those of the rest. |
| Playback.CurrentLyricIndex | tui.go:139-156 | The scan returns the index of the last line of the leading run at or before the position. It reports not-ok, with index 0, exactly when there are no lines or the first line is later than the position. |
| Playback.Reached | tui.go:145-151 | Every line before the stopping point is at or before the position, and the line at the stopping point is later. |
| Playback.CurrentIsLatest | tui.go:138 | On time-ordered lines the current line is the line with the largest time at or before the position. |
| Playback.CurrentMonotone | tui.go:139-156 | As the position grows the current line never moves back. |
| Playback.LyricWindow | tui.go:159-203 | The rendered window equals `Window`: plain fallback, the first seven lines before the first stamp, or the lines from three before to three after the current one. |
| Playback.RenderPlain | tui.go:163-172 | The plain fallback styles its first line current and the rest upcoming. |
| Playback.RenderAhead | tui.go:177-185 | Before the first stamp the window is the first `min(7, n)` lines, all upcoming. |
| Playback.RenderAround | tui.go:186-202 | Around line `idx`, lines `max(idx-3,0)` to `min(idx+4,n)` are shown as past, current or upcoming by their place. |
| Playback.WindowAtMostSeven | main.go:173-177 | Synced windows, and main.go's plain fallback, show at most seven lines. tui.go's plain fallback shows every plain line. |
| Playback.WindowBeforeFirst | tui.go:176-185 | Before the first line's time the window is the first (up to) seven lines, all upcoming. |
| Playback.WindowAroundCurrent | tui.go:186-202 | With current line `i`, the window holds lines `max(i-3,0)`…`min(i+3,n-1)`, `i` styled current, earlier past, later upcoming. |
| Playback.PlainFallback | tui.go:160-175 | Without synced lines the plain text is shown split at newlines. main.go shows the first seven lines. The first line is current, the rest upcoming. |
| Playback.GoMod | tui.go:244 | Go's `%`: `a == (a/60)*60 + a%60` with the remainder taking the dividend's sign. |
| Playback.Pad2Reads | tui.go:244 | `%02d` of any integer, negative included, reads back as itself with `Atoi`. |
| Playback.FormatTime | tui.go:243-245 | The clock is `%02d` of Go's truncating `secs/60`, a colon, and `%02d` of Go's `secs%60`. Neither field holds a colon, and `Atoi` reads each field back as that quotient and remainder. |
| Playback.FormatTimeShape | tui.go:243-245 | For a non-negative time the clock is `MM:SS`, with at least two minute digits and exactly two second digits below 60. |
| Playback.FormatTimeRoundTrip | tui.go:243-245 | The clock text, read as an LRC timestamp, gives back the same number of seconds for every time, negative ones included. |
| Playback.CacheKey | tui.go:254-256 | The key holds the trimmed artist's length in characters, a newline, then the trimmed title's length in characters. It contains no upper-case ASCII letter. |
| Playback.CacheKeyIgnoresCase | tui.go:253-256 | Names differing only in ASCII letter case share a key. |
| Playback.CacheKeyIgnoresPadding | tui.go:253-256 | Names differing only in surrounding whitespace share a key. |
| Playback.CacheKeySeparates | tui.go:253-256 | For artists without a line break, two tracks share a key exactly when their trimmed, lower-cased artists and titles are equal. |
| Db.NormalizeTitle | db.go:23-27 | The queried title has no surrounding whitespace. |
| Db.NormalizeNoParen | db.go:23-27 | The queried title has no `(`. |
| Db.NormalizeCut | db.go:23-27 | For a title `a(b` with no `(` in `a`, the queried title is `a` trimmed: the text before the first `(` is kept and everything from it on is cut. |
| Db.NormalizeNoParenKept | db.go:23-27 | A title without `(` is only trimmed. |
| Db.NoteDropped | db.go:23-27 | A note in parentheses after a space is dropped from a trimmed title without `(`, leaving exactly the title. |
| Db.NormalizeExample | db.go:23-27 | `karma police (remastered 2016)` is queried as `karma police`. |
| Db.NormalizeIdempotent | db.go:23-27 | Normalising a normalised title changes nothing. |
| Db.QueryLyrics | db.go:22-96 | Exactly one of lyric and error is returned. The duration query is always issued. The query without the duration is issued exactly when the first finds no row, and differs from it only in the missing duration. |
| Db.PrimaryHit | db.go:46-57 | A row for the exact query is returned as found. |
| Db.PrimaryFailure | db.go:57-93 | A database error on the exact query is returned as `scan row: …`, whatever the second query would answer. |
| Db.Fallback | db.go:57-94 | With no row for the exact query, the result is the second query's row, `ErrNoRows` when it finds none, or `scan row: …` for its error. |
| Db.LookupLocal | db.go:22-96 | The result depends on the database only through the answers to the queries issued. |
| Sync.Model.constructor | tui.go:28-37 | A new model has the zero snapshot, no lyric, no lines, no error and empty caches. |
| Sync.Model.Update | tui.go:76-128 | One message changes the fields exactly as `Next` says and returns its command. It keeps the caches coherent and every held line list sorted. |
| Sync.Model.OnTrack | tui.go:80-96 | A track message updates the snapshot. On a track change it adopts the cached lyric and lines or asks for a fetch. |
| Sync.Model.OnLyric | tui.go:97-119 | A lyric message parses synced text only when its key has no parsed lines. It caches the lyric under the current track's key. |
| Sync.NextCoherent | tui.go:97-119 | Every message keeps parsed entries within the lyric cache's keys, and every held line list sorted. |
| Sync.CachesGrow | tui.go:76-128 | The caches only grow, and parsed lines once cached are never replaced. |
| Sync.LyricCachesGrow | tui.go:97-119 | A lyric message adds at most the current track's key to either cache. |
| Sync.ErrorSticky | tui.go:120-121 | Only an error message changes the error, and it sets it; nothing clears it. |
| Sync.TickAndKeys | tui.go:76-127 | Ticks, keys and unrecognised messages leave the state alone. A tick polls the player again and Ctrl+C or `q` quits. Any other key or message asks for nothing. |
| Sync.SameTrack | tui.go:80-85 | The same artist and title only refresh the snapshot (position, duration). |
| Sync.NewTrackCached | tui.go:85-94 | A changed track with a cached lyric adopts it, with its cached lines or none, and fetches nothing. |
| Sync.NewTrackFetched | tui.go:85-95 | A changed track without a cached lyric clears the lyric and lines and fetches that track. |
| Sync.NilLyric | tui.go:97-99 | A nil lyric clears the lyric only. The lines and both caches are kept, so "no lyrics" is not remembered. |
| Sync.LyricKeyFromCurrentTrack | tui.go:97-119 | A lyric is cached under the key of the track playing when it arrives. |
| Sync.SyncedReused | tui.go:99-111 | Synced text is parsed once per key. Cached lines are reused; otherwise the parsed, time-sorted lines are shown and cached. |
| Sync.LyricIdempotent | tui.go:97-119 | Delivering the same lyric twice has the effect of delivering it once. |
| Sync.StaleLyricCached | tui.go:85-119 | A fetch answer arriving after a switch to another uncached track is shown and cached under that other track's key. |
| Sync.ResultOutcome | tui.go:65-72 | A lookup result becomes the lyric, a nil lyric for `ErrNoRows`, or an error message. |
| Sync.FetchMsg | tui.go:63-74 | A fetch always answers with a lyric message or an error message. It is an error message exactly when the lookup found no row and failed with an error other than "no rows". |
| Sync.FetchOutcome | tui.go:63-74 | A fetch looks up the lower-cased names. A found lyric is delivered, no row is a nil lyric, and a database error is an error message. |
| Sync.View | tui.go:205-241 | The frame is drawn exactly when there is no error and the duration is not zero. It names the current artist and title and carries the lyrics block. |
| Sync.BlockOf | tui.go:220-223 | When lines are shown, they are the lyric window. A placeholder replaces the window only when there is no lyric, or the lyric has no synced lines. |
| Sync.ViewPrecedence | tui.go:205-211 | An error hides everything. Otherwise a zero duration shows the waiting text; only then is the frame drawn with the lyrics block. |
| Sync.ModularPlaceholder | tui.go:220-223 | tui.go shows `(no lyrics)` exactly when the lyric is nil, even while lines of an earlier lyric are held. Otherwise it shows the window. |
| Sync.MonolithicPlaceholders | main.go:234-239 | main.go shows `(searching lyrics...)` for an empty window with a nil lyric. It shows `(no lyrics)` for a lyric with neither lines nor plain text. Otherwise it shows the window. |

## Left out

- `QueryCmus` (cmus.go:70-76) runs the `cmus-remote` subprocess; the model starts
  from its output text. `fetchTrackCmd` and `tickCmd` are modelled as the command tag
  `PollAndTick`.
- The Bubble Tea runtime is not modelled: `Init`, `tea.Batch`, `tea.Tick`, the order in
  which command results arrive, and concurrency. The model treats messages as a
  sequence handled one at a time.
- The database handle, the SQL text, `sql.Open` and `main` are not modelled. The
  database is a function from a query to its answer (row, no rows, or failure text).
- The progress bar is not modelled, nor the floating-point ratio behind it
  (tui.go:212-219). Neither are lipgloss styles: a shown line carries its style tag
  (`Current`, `Past`, `Upcoming`) instead of escape codes.
- `Sync.View` returns the parts of the frame, not the `fmt.Sprintf`'d string.
- Sync.MonolithicPlaceholders: main.go tests the rendered block for being the empty
  string. The model tests the window for having no lines. A window of one empty plain line renders as the
  empty string in Go but counts as one line here.
- The `log.Fatal` on a parser error (tui.go:106-108) is left out. `ParseSyncedLyrics`
  always returns a nil error, so the parser returns only the lines.
- `strconv.Atoi` overflow for numbers outside 64 bits is not modelled; integers are
  unbounded.
- `ToLower` and `TrimSpace` cover ASCII letters and ASCII whitespace only; Unicode case
  mapping and Unicode spaces are not modelled.
- `Lyric.durationSeconds` is a `real` and is never computed with.
- main.go's `Lyric` has no `HasPlain`/`HasSynced` columns. Both variants share one
  `Lyric` type, and those fields are simply unread.
- Playback.CurrentIsLatest requires time-ordered lines, which every line list the model
  holds is (`Sync.NextCoherent`). On unordered lines the scan stops at the first later
  line, and `Playback.CurrentLyricIndex` states that behaviour.
- Behaviour of the code that a reader may not expect:
  - a lookup that finds nothing is not cached, so revisiting the track fetches again
    (`Sync.NilLyric`);
  - a lyric that arrives after the track changed is not discarded; it is shown and
    cached under the current track's key (`Sync.StaleLyricCached`);
  - an error is never cleared by later successful polls (`Sync.ErrorSticky`);
  - tui.go shows all plain lines, not the first seven (`Playback.WindowAtMostSeven`).
