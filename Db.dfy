/** The two-tier lyrics lookup `queryLyrics` of db.go (and its copy in main.go): an
    exact query by artist, title and duration, and, only when that finds no row, a
    second query without the duration. The database is a function from a query to
    its answer. */
module Db {
  import opened Wrappers
  import opened GoStrings
  import opened Variants

  /** A row of the lyrics table; `sql.Null*` columns are options. main.go reads the
      first five columns only and leaves the two flags unset. */
  datatype Lyric = Lyric(
    id: Option<int>,
    nameLower: Option<string>,
    durationSeconds: Option<real>,
    plainLyrics: Option<string>,
    syncedLyrics: Option<string>,
    hasPlain: Option<bool>,
    hasSynced: Option<bool>)

  /** A query: lower-cased artist and title, and the duration in seconds unless the
      query leaves it out. */
  datatype Query = Query(artist: string, name: string, duration: Option<int>)

  /** What the database answers to one `QueryRow(...).Scan(...)`. */
  datatype Answer = Row(lyric: Lyric) | NoRows | Failed(cause: string)

  /** The lookup's errors: `sql.ErrNoRows` itself, or a database error wrapped as
      `scan row: ...`. */
  datatype LookupError = ErrNoRows | ScanRow(cause: string)

  type Store = Query -> Answer

  /** db.go's title normalisation: trim, cut before the first `(`, trim again. */
  function NormalizeTitle(name: string): (r: string)
    ensures Trimmed(r)
  {
    TrimSpace(Before(TrimSpace(name), '('))
  }

  /** The title that is queried: normalised in db.go, as given in main.go. */
  function QueryTitle(variant: Variant, name: string): string {
    if variant == Modular then NormalizeTitle(name) else name
  }

  /** What the lookup returns for a database answer, with the second query when the
      first found no row. */
  function Lookup(store: Store, variant: Variant, artist: string, name: string, duration: int)
    : (Option<Lyric>, Option<LookupError>)
  {
    var title := QueryTitle(variant, name);
    match store(Query(artist, title, Some(duration)))
    case Row(l) => (Some(l), None)
    case Failed(c) => (None, Some(ScanRow(c)))
    case NoRows =>
      match store(Query(artist, title, None))
      case Row(l) => (Some(l), None)
      case NoRows => (None, Some(ErrNoRows))
      case Failed(c) => (None, Some(ScanRow(c)))
  }

  /** `queryLyrics`: the queries it issues, in order, and its result. Exactly one of
      the lyric and the error is present; the second query is issued exactly when the
      first finds no row, and it differs from the first only in leaving out the
      duration. */
  method QueryLyrics(store: Store, variant: Variant, artistLower: string, nameLower: string, duration: int)
    returns (it: Option<Lyric>, err: Option<LookupError>, queries: seq<Query>)
    ensures (it, err) == Lookup(store, variant, artistLower, nameLower, duration)
    ensures it.Some? <==> err.None?
    ensures 1 <= |queries| <= 2
    ensures queries[0] == Query(artistLower, QueryTitle(variant, nameLower), Some(duration))
    ensures |queries| == (if store(queries[0]) == NoRows then 2 else 1)
    ensures |queries| == 2 ==> queries[1] == queries[0].(duration := None)
  {
    var name := nameLower;
    if variant == Modular {
      name := TrimSpace(name);
      var cut := IndexOf(name, '(');
      if cut.Some? {
        name := name[..cut.value];
      }
      name := TrimSpace(name);
    }
    var primary := Query(artistLower, name, Some(duration));
    queries := [primary];
    var answer := store(primary);
    if answer.NoRows? {
      var fallback := Query(artistLower, name, None);
      queries := queries + [fallback];
      answer := store(fallback);
    }
    match answer
    case Row(l) =>
      it, err := Some(l), None;
    case NoRows =>
      it, err := None, Some(ErrNoRows);
    case Failed(c) =>
      it, err := None, Some(ScanRow(c));
  }

  /** A hit on the exact query is returned as it is. */
  lemma PrimaryHit(store: Store, variant: Variant, artist: string, name: string, duration: int, l: Lyric)
    requires store(Query(artist, QueryTitle(variant, name), Some(duration))) == Row(l)
    ensures Lookup(store, variant, artist, name, duration) == (Some(l), None)
  {
  }

  /** A database error on the exact query is returned wrapped, without a second
      query (see `QueryLyrics`), whatever the second query would answer. */
  lemma PrimaryFailure(store: Store, variant: Variant, artist: string, name: string, duration: int, c: string)
    requires store(Query(artist, QueryTitle(variant, name), Some(duration))) == Failed(c)
    ensures Lookup(store, variant, artist, name, duration) == (None, Some(ScanRow(c)))
  {
  }

  /** With no row for the exact query the answer is that of the query without the
      duration; no row there either is `ErrNoRows`. */
  lemma Fallback(store: Store, variant: Variant, artist: string, name: string, duration: int)
    requires store(Query(artist, QueryTitle(variant, name), Some(duration))) == NoRows
    ensures var second := store(Query(artist, QueryTitle(variant, name), None));
            Lookup(store, variant, artist, name, duration)
              == match second
                 case Row(l) => (Some(l), None)
                 case NoRows => (None, Some(ErrNoRows))
                 case Failed(c) => (None, Some(ScanRow(c)))
  {
  }

  /** The lookup depends on the store only through the answers to the queries it
      issues: stores that agree on those give the same result. */
  lemma LookupLocal(s1: Store, s2: Store, variant: Variant, artist: string, name: string, duration: int)
    requires var title := QueryTitle(variant, name);
             s1(Query(artist, title, Some(duration))) == s2(Query(artist, title, Some(duration))) &&
             (s1(Query(artist, title, Some(duration))) == NoRows ==>
                s1(Query(artist, title, None)) == s2(Query(artist, title, None)))
    ensures Lookup(s1, variant, artist, name, duration) == Lookup(s2, variant, artist, name, duration)
  {
  }

  /** The normalised title has no `(`. */
  lemma NormalizeNoParen(name: string)
    ensures '(' !in NormalizeTitle(name)
  {
    BeforeLacks(TrimSpace(name), '(');
    TrimSpaceLacks(Before(TrimSpace(name), '('), '(');
  }

  /** The text before the first `(` is kept, trimmed; the rest is cut. */
  lemma NormalizeCut(a: string, b: string)
    requires '(' !in a
    ensures NormalizeTitle(a + "(" + b) == TrimSpace(a)
  {
    assert a + "(" + b == a + (['('] + b);
    TrimSpaceAround(a, '(', b);
    assert TrimLeft(a) + (['('] + TrimRight(b)) == TrimLeft(a) + ['('] + TrimRight(b);
    TrimLeftSuffix(a);
    assert '(' !in TrimLeft(a) by {
      forall i | 0 <= i < |TrimLeft(a)| ensures TrimLeft(a)[i] != '(' {
        assert TrimLeft(a)[i] == a[|a| - |TrimLeft(a)| + i];
      }
    }
    BeforeFirst(TrimLeft(a), '(', TrimRight(b));
    TrimSpaceOfTrimLeft(a);
  }

  /** A remastering note in parentheses is dropped from the queried title. */
  lemma NormalizeExample(name: string, title: string)
    requires name == "karma police (remastered 2016)" && title == "karma police"
    ensures NormalizeTitle(name) == title
  {
    var note := "remastered 2016)";
    assert name == title + " (" + note;
    assert '(' !in title && Trimmed(title) by {
      assert title[0] == 'k' && title[|title| - 1] == 'e';
    }
    NoteDropped(title, note);
  }

  /** A note in parentheses after a space is dropped from a trimmed title. */
  lemma NoteDropped(title: string, note: string)
    requires '(' !in title && Trimmed(title)
    ensures NormalizeTitle(title + " (" + note) == title
  {
    assert title + " (" + note == (title + " ") + "(" + note;
    assert '(' !in title + " ";
    NormalizeCut(title + " ", note);
    TrimSpacePadded(title, " ");
  }

  /** A title without `(` is only trimmed. */
  lemma NormalizeNoParenKept(s: string)
    requires '(' !in s
    ensures NormalizeTitle(s) == TrimSpace(s)
  {
    TrimSpaceLacks(s, '(');
    assert Before(TrimSpace(s), '(') == TrimSpace(s) by {
      SplitWithout(TrimSpace(s), '(');
    }
    TrimSpaceIdempotent(s);
  }

  /** Normalising a normalised title changes nothing. */
  lemma NormalizeIdempotent(name: string)
    ensures NormalizeTitle(NormalizeTitle(name)) == NormalizeTitle(name)
  {
    var r := NormalizeTitle(name);
    NormalizeNoParen(name);
    TrimSpaceOfTrimmed(r);
    assert Before(r, '(') == r;
  }
}
