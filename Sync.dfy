/** The Bubble Tea model of tui.go (and its copy in main.go): the player snapshot,
    the lyric on screen with its synced lines, the last error and the two lyric caches,
    updated one message at a time, and the screen drawn from them. Commands are
    returned as tags; running them (and so the order in which their answers arrive)
    is outside the model. */
module Sync {
  import opened Wrappers
  import opened GoStrings
  import opened Variants
  import opened Cmus
  import opened Lrc
  import opened Playback
  import opened Db

  /** The messages `Update` receives. A key press quits when it is Ctrl+C or `q`;
      any other message (a window resize, say) is `Other`. */
  datatype Msg =
    | Tick
    | Track(info: TrackInfo)
    | LyricMsg(lyric: Option<Lyric>)
    | ErrMsg(text: string)
    | Key(ctrlC: bool, text: string)
    | Other

  /** The commands `Update` asks for: poll the player and re-arm the timer, fetch the
      lyric of a track, or quit. */
  datatype Cmd = NoCmd | PollAndTick | FetchLyric(artist: string, title: string, duration: int) | Quit

  /** The model's fields, as a value. */
  datatype State = State(
    info: TrackInfo,
    lyric: Option<Lyric>,
    synced: seq<SyncedLine>,
    err: Option<string>,
    lyricCache: map<string, Lyric>,
    syncedCache: map<string, seq<SyncedLine>>)

  /** `newModel`: nothing known yet, empty caches. */
  const Initial := State(ZeroInfo, None, [], None, map[], map[])

  /** What the model keeps true: every parsed entry has its lyric cached too, and the
      lines on screen and in the cache are in time order. */
  ghost predicate Coherent(s: State) {
    s.syncedCache.Keys <= s.lyricCache.Keys &&
    Sorted(s.synced) &&
    forall k :: k in s.syncedCache ==> Sorted(s.syncedCache[k])
  }

  /** The state after the lyric message `l` has arrived, while the player shows
      `s.info`: the cache key is that of the current track. */
  function WithLyric(s: State, l: Option<Lyric>): State {
    var key := CacheKey(s.info.artist, s.info.title);
    match l
    case None => s.(lyric := None)
    case Some(ly) =>
      match ly.syncedLyrics
      case Some(text) =>
        if key in s.syncedCache then
          s.(lyric := l, synced := s.syncedCache[key], lyricCache := s.lyricCache[key := ly])
        else
          var parsed := SortByTime(Emitted(text));
          s.(lyric := l, synced := parsed, syncedCache := s.syncedCache[key := parsed],
             lyricCache := s.lyricCache[key := ly])
      case None => s.(lyric := l, lyricCache := s.lyricCache[key := ly])
  }

  /** The state after the player reported `t`: a new track is looked up in the cache
      first and fetched only when it is not there. */
  function WithTrack(s: State, t: TrackInfo): (State, Cmd) {
    if t.title == s.info.title && t.artist == s.info.artist then (s.(info := t), NoCmd)
    else
      var key := CacheKey(t.artist, t.title);
      if key in s.lyricCache then
        var synced := if key in s.syncedCache then s.syncedCache[key] else [];
        (s.(info := t, lyric := Some(s.lyricCache[key]), synced := synced), NoCmd)
      else (s.(info := t, lyric := None, synced := []), FetchLyric(t.artist, t.title, t.duration))
  }

  /** `Update` on values: the next state and the command asked for. */
  function Next(s: State, msg: Msg): (State, Cmd) {
    match msg
    case Tick => (s, PollAndTick)
    case Track(t) => WithTrack(s, t)
    case LyricMsg(l) => (WithLyric(s, l), NoCmd)
    case ErrMsg(e) => (s.(err := Some(e)), NoCmd)
    case Key(ctrlC, text) => (s, if ctrlC || text == "q" then Quit else NoCmd)
    case Other => (s, NoCmd)
  }

  /** The model object; `Update` changes its fields in place. */
  class Model {
    var info: TrackInfo
    var lyric: Option<Lyric>
    var synced: seq<SyncedLine>
    var err: Option<string>
    var lyricCache: map<string, Lyric>
    var syncedCache: map<string, seq<SyncedLine>>

    function Snapshot(): State
      reads this
    {
      State(info, lyric, synced, err, lyricCache, syncedCache)
    }

    ghost predicate Valid()
      reads this
    {
      Coherent(Snapshot())
    }

    /** `newModel`. */
    constructor ()
      ensures Snapshot() == Initial
      ensures Valid()
    {
      info, lyric, synced, err := ZeroInfo, None, [], None;
      lyricCache, syncedCache := map[], map[];
    }

    /** `Update`: one message changes the fields as `Next` says and returns the
        command it asks for. */
    method Update(msg: Msg) returns (cmd: Cmd)
      requires Valid()
      modifies this
      ensures Valid()
      ensures Snapshot() == Next(old(Snapshot()), msg).0
      ensures cmd == Next(old(Snapshot()), msg).1
    {
      NextCoherent(Snapshot(), msg);
      cmd := NoCmd;
      match msg
      case Tick =>
        cmd := PollAndTick;
      case Track(t) =>
        cmd := OnTrack(t);
      case LyricMsg(l) =>
        OnLyric(l);
      case ErrMsg(e) =>
        err := Some(e);
      case Key(ctrlC, text) =>
        if ctrlC || text == "q" {
          cmd := Quit;
        }
      case Other =>
    }

    /** The track-snapshot branch of `Update`. */
    method OnTrack(t: TrackInfo) returns (cmd: Cmd)
      modifies this
      ensures (Snapshot(), cmd) == WithTrack(old(Snapshot()), t)
    {
      cmd := NoCmd;
      var oldTitle, oldArtist := info.title, info.artist;
      info := t;
      if info.title != oldTitle || info.artist != oldArtist {
        lyric, synced := None, [];
        var key := CacheKey(info.artist, info.title);
        if key in lyricCache {
          lyric := Some(lyricCache[key]);
          synced := if key in syncedCache then syncedCache[key] else [];
          return;
        }
        cmd := FetchLyric(info.artist, info.title, info.duration);
      }
    }

    /** The lyric-message branch of `Update`: synced text is parsed only when its key
        has no parsed lines yet. */
    method OnLyric(l: Option<Lyric>)
      modifies this
      ensures Snapshot() == WithLyric(old(Snapshot()), l)
    {
      lyric := l;
      if lyric.Some? && lyric.value.syncedLyrics.Some? {
        var key := CacheKey(info.artist, info.title);
        if key in syncedCache {
          synced := syncedCache[key];
        } else {
          var parsed := ParseSyncedLyrics(lyric.value.syncedLyrics.value);
          synced := parsed;
          syncedCache := syncedCache[key := parsed];
        }
        lyricCache := lyricCache[key := lyric.value];
      } else if lyric.Some? {
        var key := CacheKey(info.artist, info.title);
        lyricCache := lyricCache[key := lyric.value];
      }
    }
  }

  // ---------------------------------------------------------------------------
  // What one message does

  /** Every message keeps the model coherent. */
  lemma NextCoherent(s: State, msg: Msg)
    requires Coherent(s)
    ensures Coherent(Next(s, msg).0)
  {
    match msg
    case LyricMsg(l) => LyricCoherent(s, l);
    case Track(t) => TrackCoherent(s, t);
    case _ =>
  }

  lemma LyricCoherent(s: State, l: Option<Lyric>)
    requires Coherent(s)
    ensures Coherent(WithLyric(s, l))
  {
    var key := CacheKey(s.info.artist, s.info.title);
    if l.Some? && l.value.syncedLyrics.Some? {
      if key in s.syncedCache {
        CachedKept(s, key, l.value);
      } else {
        var parsed := SortByTime(Emitted(l.value.syncedLyrics.value));
        SortSorted(Emitted(l.value.syncedLyrics.value));
        ParsedAdded(s, key, l.value, parsed);
      }
    }
  }

  /** Adopting cached lines for `key` while caching the lyric keeps the model coherent. */
  lemma CachedKept(s: State, key: string, ly: Lyric)
    requires Coherent(s) && key in s.syncedCache
    ensures Coherent(s.(lyric := Some(ly), synced := s.syncedCache[key], lyricCache := s.lyricCache[key := ly]))
  {
  }

  /** Caching freshly parsed, sorted lines and their lyric under `key` keeps the model
      coherent. */
  lemma ParsedAdded(s: State, key: string, ly: Lyric, parsed: seq<SyncedLine>)
    requires Coherent(s) && Sorted(parsed)
    ensures Coherent(s.(lyric := Some(ly), synced := parsed, syncedCache := s.syncedCache[key := parsed],
                        lyricCache := s.lyricCache[key := ly]))
  {
  }

  lemma TrackCoherent(s: State, t: TrackInfo)
    requires Coherent(s)
    ensures Coherent(WithTrack(s, t).0)
  {
  }

  /** The caches only grow, and a parsed entry, once cached, is never replaced. */
  lemma CachesGrow(s: State, msg: Msg)
    ensures var t := Next(s, msg).0;
            s.lyricCache.Keys <= t.lyricCache.Keys &&
            forall k :: k in s.syncedCache ==> k in t.syncedCache && t.syncedCache[k] == s.syncedCache[k]
  {
    match msg
    case LyricMsg(l) =>
      LyricCachesGrow(s, l);
    case Track(i) =>
      assert Next(s, msg).0.syncedCache == s.syncedCache;
      assert Next(s, msg).0.lyricCache == s.lyricCache;
    case _ =>
  }

  /** A lyric message adds at most the current track's key to the caches. */
  lemma LyricCachesGrow(s: State, l: Option<Lyric>)
    ensures var key := CacheKey(s.info.artist, s.info.title);
            var t := WithLyric(s, l);
            t.lyricCache.Keys <= s.lyricCache.Keys + {key} && s.lyricCache.Keys <= t.lyricCache.Keys &&
            t.syncedCache.Keys <= s.syncedCache.Keys + {key} &&
            forall k :: k in s.syncedCache ==> k in t.syncedCache && t.syncedCache[k] == s.syncedCache[k]
  {
    var key := CacheKey(s.info.artist, s.info.title);
    if l.Some? && l.value.syncedLyrics.Some? && key !in s.syncedCache {
      var v := SortByTime(Emitted(l.value.syncedLyrics.value));
      assert WithLyric(s, l).syncedCache == s.syncedCache[key := v];
    } else {
      assert WithLyric(s, l).syncedCache == s.syncedCache;
    }
  }

  /** An error is kept from the moment it arrives: only an error message changes it. */
  lemma ErrorSticky(s: State, msg: Msg)
    ensures Next(s, msg).0.err == if msg.ErrMsg? then Some(msg.text) else s.err
    ensures msg.ErrMsg? ==> Next(s, msg) == (s.(err := Some(msg.text)), NoCmd)
  {
  }

  /** Timer ticks, key presses and unrecognised messages change nothing; a tick polls
      the player again, Ctrl+C or `q` quits, and nothing else asks for a command. */
  lemma TickAndKeys(s: State, msg: Msg)
    requires msg.Tick? || msg.Key? || msg.Other?
    ensures Next(s, msg).0 == s
    ensures Next(s, msg).1 == if msg.Tick? then PollAndTick else if msg.Key? && (msg.ctrlC || msg.text == "q") then Quit else NoCmd
  {
  }

  /** The same track again (same artist and title) only refreshes the snapshot. */
  lemma SameTrack(s: State, t: TrackInfo)
    requires t.artist == s.info.artist && t.title == s.info.title
    ensures Next(s, Track(t)) == (s.(info := t), NoCmd)
  {
  }

  /** A new track whose lyric is cached shows it, with the cached synced lines (none
      when only the plain text was cached), and fetches nothing. */
  lemma NewTrackCached(s: State, t: TrackInfo)
    requires t.artist != s.info.artist || t.title != s.info.title
    requires CacheKey(t.artist, t.title) in s.lyricCache
    ensures var key := CacheKey(t.artist, t.title);
            var (u, cmd) := Next(s, Track(t));
            cmd == NoCmd && u.info == t && u.lyric == Some(s.lyricCache[key]) &&
            u.synced == (if key in s.syncedCache then s.syncedCache[key] else []) &&
            u.lyricCache == s.lyricCache && u.syncedCache == s.syncedCache && u.err == s.err
  {
  }

  /** A new track whose lyric is not cached clears the lyric and its lines and asks
      for a fetch of that track. */
  lemma NewTrackFetched(s: State, t: TrackInfo)
    requires t.artist != s.info.artist || t.title != s.info.title
    requires CacheKey(t.artist, t.title) !in s.lyricCache
    ensures Next(s, Track(t)) == (s.(info := t, lyric := None, synced := []), FetchLyric(t.artist, t.title, t.duration))
  {
  }

  /** A lookup that found nothing clears the lyric but leaves the lines on screen and
      both caches alone: a missing lyric is not remembered. */
  lemma NilLyric(s: State)
    ensures Next(s, LyricMsg(None)) == (s.(lyric := None), NoCmd)
  {
  }

  /** A lyric is cached under the key of the track playing when it arrives, not of
      the track it was fetched for. */
  lemma LyricKeyFromCurrentTrack(s: State, ly: Lyric)
    ensures var u := Next(s, LyricMsg(Some(ly))).0;
            u.lyric == Some(ly) && u.lyricCache == s.lyricCache[CacheKey(s.info.artist, s.info.title) := ly]
  {
    assert Next(s, LyricMsg(Some(ly))).0 == WithLyric(s, Some(ly));
  }

  /** Synced text whose key already has parsed lines is not parsed again: the cached
      lines are shown. Otherwise the text is parsed (sorted by time) and cached. */
  lemma SyncedReused(s: State, ly: Lyric)
    requires ly.syncedLyrics.Some?
    ensures var key := CacheKey(s.info.artist, s.info.title);
            var u := Next(s, LyricMsg(Some(ly))).0;
            (key in s.syncedCache ==> u.synced == s.syncedCache[key] && u.syncedCache == s.syncedCache) &&
            (key !in s.syncedCache ==>
               u.synced == SortByTime(Emitted(ly.syncedLyrics.value)) && u.syncedCache == s.syncedCache[key := u.synced])
  {
  }

  /** Delivering the same lyric twice has the effect of delivering it once. */
  lemma LyricIdempotent(s: State, l: Option<Lyric>)
    ensures var u := Next(s, LyricMsg(l)).0;
            Next(u, LyricMsg(l)).0 == u
  {
    if l.Some? {
      if l.value.syncedLyrics.Some? {
        SyncedLyricAgain(s, l.value);
      } else {
        PlainLyricAgain(s, l.value);
      }
    }
  }

  /** `LyricIdempotent` for a lyric with synced text. */
  lemma SyncedLyricAgain(s: State, ly: Lyric)
    requires ly.syncedLyrics.Some?
    ensures WithLyric(WithLyric(s, Some(ly)), Some(ly)) == WithLyric(s, Some(ly))
  {
    var key := CacheKey(s.info.artist, s.info.title);
    var u := WithLyric(s, Some(ly));
    assert u.lyricCache[key := ly] == u.lyricCache;
    assert key in u.syncedCache && u.synced == u.syncedCache[key];
  }

  /** `LyricIdempotent` for a lyric without synced text. */
  lemma PlainLyricAgain(s: State, ly: Lyric)
    requires ly.syncedLyrics.None?
    ensures WithLyric(WithLyric(s, Some(ly)), Some(ly)) == WithLyric(s, Some(ly))
  {
    var key := CacheKey(s.info.artist, s.info.title);
    var u := WithLyric(s, Some(ly));
    assert u.lyricCache[key := ly] == u.lyricCache;
  }

  /** The answer to a fetch for one track that arrives after the player moved on to
      another (uncached) track is shown, with its parsed lines, and cached under the
      other track's key, lines included. */
  lemma StaleLyricCached(s: State, t: TrackInfo, ly: Lyric)
    requires t.artist != s.info.artist || t.title != s.info.title
    requires CacheKey(t.artist, t.title) !in s.lyricCache
    requires CacheKey(t.artist, t.title) !in s.syncedCache
    requires ly.syncedLyrics.Some?
    ensures var u := Next(Next(s, Track(t)).0, LyricMsg(Some(ly))).0;
            var key := CacheKey(t.artist, t.title);
            u.lyric == Some(ly) && u.synced == SortByTime(Emitted(ly.syncedLyrics.value)) &&
            u.lyricCache[key] == ly && u.syncedCache[key] == SortByTime(Emitted(ly.syncedLyrics.value))
  {
  }

  // ---------------------------------------------------------------------------
  // Fetching a lyric

  /** The error text `errMsg` carries for a failed lookup. */
  function LookupErrorText(e: LookupError): string {
    match e
    case ErrNoRows => "sql: no rows in result set"
    case ScanRow(c) => "scan row: " + c
  }

  /** The message a lookup result becomes: no row at all is a nil lyric, any other
      error an error message. */
  function ResultMsg(r: (Option<Lyric>, Option<LookupError>)): Msg {
    match r
    case (Some(l), _) => LyricMsg(Some(l))
    case (None, Some(ErrNoRows)) => LyricMsg(None)
    case (None, Some(e)) => ErrMsg(LookupErrorText(e))
    case (None, None) => LyricMsg(None)
  }

  /** `fetchLyricCmd`: look the lower-cased artist and title up and turn the result
      into a message. */
  function FetchMsg(store: Store, variant: Variant, artist: string, title: string, duration: int): (m: Msg)
    ensures m.LyricMsg? || m.ErrMsg?
    ensures var r := Lookup(store, variant, ToLower(artist), ToLower(title), duration);
            m.ErrMsg? <==> r.0.None? && r.1.Some? && r.1.value.ScanRow?
  {
    ResultMsg(Lookup(store, variant, ToLower(artist), ToLower(title), duration))
  }

  /** The message of a lookup result is the lyric when one was found, a nil lyric when
      neither query found a row, and an error message for a database error. */
  lemma ResultOutcome(it: Option<Lyric>, err: Option<LookupError>)
    ensures var m := ResultMsg((it, err));
            (it.Some? ==> m == LyricMsg(it)) &&
            (err == Some(ErrNoRows) && it.None? ==> m == LyricMsg(None)) &&
            (it.None? && err.Some? && err.value.ScanRow? ==> m == ErrMsg("scan row: " + err.value.cause))
  {
  }

  /** A fetch whose exact query finds a row delivers that lyric; one whose queries find
      no row delivers a nil lyric; a database error becomes an error message. */
  lemma FetchOutcome(store: Store, variant: Variant, artist: string, title: string, duration: int)
    ensures var r := Lookup(store, variant, ToLower(artist), ToLower(title), duration);
            var m := FetchMsg(store, variant, artist, title, duration);
            (r.0.Some? ==> m == LyricMsg(r.0)) &&
            (r.1 == Some(ErrNoRows) ==> m == LyricMsg(None)) &&
            (r.1.Some? && r.1.value.ScanRow? ==> m == ErrMsg("scan row: " + r.1.value.cause))
  {
    var r := Lookup(store, variant, ToLower(artist), ToLower(title), duration);
    ResultOutcome(r.0, r.1);
  }

  // ---------------------------------------------------------------------------
  // The screen

  /** The lyrics block: the shown lines, or a placeholder text. */
  datatype Block = Lines(lines: seq<WindowLine>) | Placeholder(text: string)

  /** What `View` draws: the error, the waiting text, or the full frame (artist,
      title, the `position / duration` clock and the lyrics block). The progress bar
      is left out. */
  datatype Screen = ErrorScreen(text: string) | Waiting | Frame(artist: string, title: string, clock: string, block: Block)

  /** The plain text the window may fall back to: that of a non-nil lyric. */
  function PlainOf(lyric: Option<Lyric>): Option<string> {
    if lyric.Some? then lyric.value.plainLyrics else None
  }

  /** The lyrics block: tui.go replaces it by `(no lyrics)` whenever the lyric is nil;
      main.go shows `(searching lyrics...)` for an empty window with a nil lyric and
      `(no lyrics)` for an empty window with a lyric that has neither lines nor plain
      text. */
  function BlockOf(variant: Variant, s: State): (b: Block)
    ensures b.Lines? ==> b.lines == Window(variant, s.synced, PlainOf(s.lyric), s.info.current)
    ensures b.Placeholder? ==> s.lyric.None? || s.synced == []
  {
    var w := Window(variant, s.synced, PlainOf(s.lyric), s.info.current);
    match variant
    case Modular => if s.lyric.None? then Placeholder("(no lyrics)") else Lines(w)
    case Monolithic =>
      if w == [] && s.lyric.None? then Placeholder("(searching lyrics...)")
      else if w == [] && s.lyric.Some? && s.synced == [] && s.lyric.value.plainLyrics.None? then Placeholder("(no lyrics)")
      else Lines(w)
  }

  /** `View`. */
  function View(variant: Variant, s: State): (r: Screen)
    ensures r.Frame? <==> s.err.None? && s.info.duration != 0
    ensures r.Frame? ==> r.artist == s.info.artist && r.title == s.info.title && r.block == BlockOf(variant, s)
  {
    if s.err.Some? then ErrorScreen(s.err.value)
    else if s.info.duration == 0 then Waiting
    else Frame(s.info.artist, s.info.title,
               FormatTime(s.info.current) + " / " + FormatTime(s.info.duration),
               BlockOf(variant, s))
  }

  /** An error hides everything else; without one, a zero duration shows the waiting
      text, and only then the frame is drawn. */
  lemma ViewPrecedence(variant: Variant, s: State)
    ensures View(variant, s).ErrorScreen? <==> s.err.Some?
    ensures View(variant, s) == Waiting <==> s.err.None? && s.info.duration == 0
    ensures View(variant, s).Frame? ==> View(variant, s).block == BlockOf(variant, s)
  {
  }

  /** main.go's placeholders: searching while there is no lyric and nothing to show,
      `(no lyrics)` for a lyric with neither synced lines nor plain text, and the
      window in every other case. */
  lemma MonolithicPlaceholders(s: State)
    ensures var w := Window(Monolithic, s.synced, PlainOf(s.lyric), s.info.current);
            (BlockOf(Monolithic, s) == Placeholder("(searching lyrics...)") <==> w == [] && s.lyric.None?) &&
            (BlockOf(Monolithic, s) == Placeholder("(no lyrics)") <==>
               s.lyric.Some? && s.synced == [] && s.lyric.value.plainLyrics.None?) &&
            (BlockOf(Monolithic, s).Lines? ==> BlockOf(Monolithic, s).lines == w)
  {
  }

  /** tui.go's placeholder: `(no lyrics)` exactly when the lyric is nil, even while
      synced lines of an earlier lyric are still held. */
  lemma ModularPlaceholder(s: State)
    ensures BlockOf(Modular, s) == Placeholder("(no lyrics)") <==> s.lyric.None?
    ensures s.lyric.Some? ==> BlockOf(Modular, s) == Lines(Window(Modular, s.synced, PlainOf(s.lyric), s.info.current))
  {
  }
}
