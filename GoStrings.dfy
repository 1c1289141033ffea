/** The parts of Go's `strings` and `strconv` packages that the core relies on,
    restricted to ASCII: whitespace is ASCII whitespace, case is ASCII case and
    integers are unbounded. */
module GoStrings {
  import opened Wrappers

  /** `unicode.IsSpace` on the ASCII range. */
  predicate IsSpace(c: char) {
    c == ' ' || c == '\t' || c == '\n' || c == '\r' || c == '\U{0B}' || c == '\U{0C}'
  }

  predicate AllSpace(s: string) {
    forall i :: 0 <= i < |s| ==> IsSpace(s[i])
  }

  /** The string has no whitespace at either end. */
  predicate Trimmed(s: string) {
    s == [] || (!IsSpace(s[0]) && !IsSpace(s[|s| - 1]))
  }

  /** Removes leading whitespace: what is left is a suffix that does not start with
      whitespace. */
  function TrimLeft(s: string): (r: string)
    ensures |r| <= |s|
    ensures r == [] || !IsSpace(r[0])
  {
    if s != [] && IsSpace(s[0]) then TrimLeft(s[1..]) else s
  }

  lemma {:induction false} TrimLeftSuffix(s: string)
    ensures TrimLeft(s) == s[|s| - |TrimLeft(s)|..]
  {
    if s != [] && IsSpace(s[0]) {
      TrimLeftSuffix(s[1..]);
      assert s[1..][|s| - 1 - |TrimLeft(s)|..] == s[|s| - |TrimLeft(s)|..];
    }
  }

  /** What `TrimLeft` removes is all whitespace. */
  lemma {:induction false} TrimLeftRemovesSpace(s: string)
    ensures AllSpace(s[..|s| - |TrimLeft(s)|])
  {
    if s != [] && IsSpace(s[0]) {
      TrimLeftRemovesSpace(s[1..]);
      var k := |s| - |TrimLeft(s)|;
      forall i | 0 <= i < k ensures IsSpace(s[..k][i]) {
        if i > 0 {
          assert s[..k][i] == s[1..][..k - 1][i - 1];
        }
      }
    }
  }

  /** Removes trailing whitespace: what is left is a prefix that does not end with
      whitespace. */
  function TrimRight(s: string): (r: string)
    ensures |r| <= |s|
    ensures r == [] || !IsSpace(r[|r| - 1])
  {
    if s != [] && IsSpace(s[|s| - 1]) then TrimRight(s[..|s| - 1]) else s
  }

  lemma {:induction false} TrimRightPrefix(s: string)
    ensures TrimRight(s) == s[..|TrimRight(s)|]
  {
    if s != [] && IsSpace(s[|s| - 1]) {
      TrimRightPrefix(s[..|s| - 1]);
      assert s[..|s| - 1][..|TrimRight(s)|] == s[..|TrimRight(s)|];
    }
  }

  /** What `TrimRight` removes is all whitespace. */
  lemma {:induction false} TrimRightRemovesSpace(s: string)
    ensures AllSpace(s[|TrimRight(s)|..])
  {
    if s != [] && IsSpace(s[|s| - 1]) {
      TrimRightRemovesSpace(s[..|s| - 1]);
      var k := |TrimRight(s)|;
      forall i | 0 <= i < |s| - k ensures IsSpace(s[k..][i]) {
        if i < |s| - k - 1 {
          assert s[k..][i] == s[..|s| - 1][k..][i];
        }
      }
    }
  }

  /** `strings.TrimSpace`: whitespace is removed from both ends. */
  function TrimSpace(s: string): (r: string)
    ensures Trimmed(r) && |r| <= |s|
  {
    var t := TrimRight(s);
    var r := TrimLeft(t);
    TrimLeftSuffix(t);
    assert r != [] ==> r[|r| - 1] == t[|t| - 1];
    r
  }

  /** `strings.TrimSpace` gives the empty string exactly for all-whitespace input. */
  lemma TrimSpaceEmpty(s: string)
    ensures TrimSpace(s) == [] <==> AllSpace(s)
  {
    var t := TrimRight(s);
    var r := TrimLeft(t);
    TrimRightPrefix(s);
    TrimLeftSuffix(t);
    TrimRightRemovesSpace(s);
    TrimLeftRemovesSpace(t);
    if r == [] {
      assert t[..|t| - |r|] == t;
      assert t == [];
      assert s[|t|..] == s;
    } else {
      assert r[0] == s[|t| - |r|];
    }
  }

  /** Trimming the right end twice is trimming it once. */
  lemma TrimRightIdempotent(s: string)
    ensures TrimRight(TrimRight(s)) == TrimRight(s)
  {
  }

  /** Trimming a string that is already trimmed changes nothing. */
  lemma TrimSpaceOfTrimmed(s: string)
    requires Trimmed(s)
    ensures TrimSpace(s) == s
  {
  }

  /** `strings.TrimSpace` is idempotent. */
  lemma TrimSpaceIdempotent(s: string)
    ensures TrimSpace(TrimSpace(s)) == TrimSpace(s)
  {
    TrimSpaceOfTrimmed(TrimSpace(s));
  }

  /** Trailing whitespace is removed up to the last non-space character. */
  lemma {:induction false} TrimRightAppend(a: string, b: string)
    requires !AllSpace(b)
    ensures TrimRight(a + b) == a + TrimRight(b)
    decreases |b|
  {
    var ab := a + b;
    if IsSpace(b[|b| - 1]) {
      assert ab[..|ab| - 1] == a + b[..|b| - 1];
      assert !AllSpace(b[..|b| - 1]) by {
        var k :| 0 <= k < |b| && !IsSpace(b[k]);
        assert b[..|b| - 1][k] == b[k];
      }
      TrimRightAppend(a, b[..|b| - 1]);
    }
  }

  /** Whitespace after a string that does not end in whitespace is all removed. */
  lemma {:induction false} TrimRightSpaces(a: string, pad: string)
    requires AllSpace(pad)
    requires a == [] || !IsSpace(a[|a| - 1])
    ensures TrimRight(a + pad) == a
    decreases |pad|
  {
    if pad == [] {
      assert a + pad == a;
    } else {
      assert (a + pad)[..|a + pad| - 1] == a + pad[..|pad| - 1];
      TrimRightSpaces(a, pad[..|pad| - 1]);
    }
  }

  /** Leading whitespace is removed up to the first non-space character. */
  lemma {:induction false} TrimLeftAppend(a: string, b: string)
    requires b != [] && !IsSpace(b[0])
    ensures TrimLeft(a + b) == TrimLeft(a) + b
    decreases |a|
  {
    if a == [] {
      assert a + b == b;
    } else {
      assert (a + b)[0] == a[0] && (a + b)[1..] == a[1..] + b;
      if IsSpace(a[0]) {
        TrimLeftAppend(a[1..], b);
      }
    }
  }

  /** Trimming around a non-space character trims the left part on the left and the
      right part on the right. */
  lemma TrimSpaceAround(a: string, c: char, b: string)
    requires !IsSpace(c)
    ensures TrimSpace(a + ([c] + b)) == TrimLeft(a) + ([c] + TrimRight(b))
  {
    var y := [c] + TrimRight(b);
    TrimRightAround(a, c, b);
    TrimLeftAppend(a, y);
  }

  /** `TrimSpaceAround` on the right end. */
  lemma TrimRightAround(a: string, c: char, b: string)
    requires !IsSpace(c)
    ensures TrimRight(a + ([c] + b)) == a + ([c] + TrimRight(b))
  {
    var x := a + [c];
    assert a + ([c] + b) == x + b;
    TrimRightAfter(x, b);
    assert x + TrimRight(b) == a + ([c] + TrimRight(b));
  }

  /** Trimming on the right stops at a non-space character. */
  lemma TrimRightAfter(x: string, b: string)
    requires x != [] && !IsSpace(x[|x| - 1])
    ensures TrimRight(x + b) == x + TrimRight(b)
  {
    if AllSpace(b) {
      TrimRightSpaces(x, b);
      TrimRightSpaces([], b);
      assert [] + b == b;
    } else {
      TrimRightAppend(x, b);
    }
  }

  /** Trailing whitespace after a trimmed string is removed. */
  lemma TrimSpacePadded(t: string, pad: string)
    requires Trimmed(t) && AllSpace(pad)
    ensures TrimSpace(t + pad) == t
  {
    TrimRightSpaces(t, pad);
  }

  /** Leading whitespace makes no difference to `TrimSpace`. */
  lemma {:induction false} TrimSpaceOfTrimLeft(a: string)
    ensures TrimSpace(TrimLeft(a)) == TrimSpace(a)
    decreases |a|
  {
    if a != [] && IsSpace(a[0]) {
      TrimSpaceOfTrimLeft(a[1..]);
      if AllSpace(a[1..]) {
        TrimSpaceEmpty(a);
        TrimSpaceEmpty(a[1..]);
      } else {
        assert a == [a[0]] + a[1..];
        TrimRightAppend([a[0]], a[1..]);
        assert TrimRight(a) == [a[0]] + TrimRight(a[1..]);
        assert ([a[0]] + TrimRight(a[1..]))[1..] == TrimRight(a[1..]);
      }
    }
  }

  /** `strings.HasPrefix`, compared character by character from the front. */
  predicate HasPrefix(s: string, p: string)
    ensures HasPrefix(s, p) ==> |p| <= |s|
  {
    p == [] || (s != [] && s[0] == p[0] && HasPrefix(s[1..], p[1..]))
  }

  /** `HasPrefix` holds exactly when `p` is the first `|p|` characters of `s`. */
  lemma {:induction false} HasPrefixIff(s: string, p: string)
    ensures HasPrefix(s, p) <==> |p| <= |s| && s[..|p|] == p
  {
    if p != [] && s != [] {
      HasPrefixIff(s[1..], p[1..]);
      assert |p| <= |s| && s[..|p|] == p <==> s[0] == p[0] && |p[1..]| <= |s[1..]| && s[1..][..|p[1..]|] == p[1..] by {
        if |p| <= |s| {
          assert s[..|p|] == [s[0]] + s[1..][..|p[1..]|];
          assert p == [p[0]] + p[1..];
        }
      }
    }
  }

  /** A string starts with any prefix it was built from. */
  lemma HasPrefixAppend(p: string, rest: string)
    ensures HasPrefix(p + rest, p)
  {
    HasPrefixIff(p + rest, p);
    assert (p + rest)[..|p|] == p;
  }

  /** A string whose first character differs from the prefix's does not start with it. */
  lemma HeadMismatch(s: string, p: string)
    requires s != [] && p != [] && s[0] != p[0]
    ensures !HasPrefix(s, p)
  {
  }

  /** `strings.Index` for a one-character separator; `None` stands for Go's -1. */
  function IndexOf(s: string, c: char): (r: Option<nat>)
    ensures r.None? <==> c !in s
    ensures r.Some? ==> r.value < |s| && s[r.value] == c && forall j :: 0 <= j < r.value ==> s[j] != c
  {
    if s == [] then None
    else if s[0] == c then Some(0)
    else
      match IndexOf(s[1..], c)
      case None => None
      case Some(i) => Some(i + 1)
  }

  /** `strings.Split` with a one-character separator: the pieces between separators,
      in order, never fewer than one. */
  function Split(s: string, sep: char): (r: seq<string>)
    ensures |r| >= 1
    decreases |s|
  {
    match IndexOf(s, sep)
    case None => [s]
    case Some(i) => [s[..i]] + Split(s[i + 1..], sep)
  }

  /** `strings.Join` with a one-character separator. */
  function Join(parts: seq<string>, sep: char): string
    requires |parts| >= 1
  {
    if |parts| == 1 then parts[0] else parts[0] + [sep] + Join(parts[1..], sep)
  }

  /** Joining the pieces of a split gives back the original string. */
  lemma {:induction false} JoinSplit(s: string, sep: char)
    ensures Join(Split(s, sep), sep) == s
    decreases |s|
  {
    match IndexOf(s, sep)
    case None =>
    case Some(i) =>
      var rest := Split(s[i + 1..], sep);
      assert Split(s, sep) == [s[..i]] + rest;
      assert Join([s[..i]] + rest, sep) == s[..i] + [sep] + Join(rest, sep);
      JoinSplit(s[i + 1..], sep);
      assert s == s[..i] + [sep] + s[i + 1..];
  }

  /** Splitting at a separator that does not occur gives the whole string. */
  lemma SplitWithout(s: string, sep: char)
    requires sep !in s
    ensures Split(s, sep) == [s]
  {
  }

  /** Splitting `a + [sep] + b` where `a` holds no separator yields `a` and then the
      pieces of `b`. */
  lemma SplitAfterFirst(a: string, sep: char, b: string)
    requires sep !in a
    ensures Split(a + [sep] + b, sep) == [a] + Split(b, sep)
  {
    var s := a + [sep] + b;
    assert s[|a|] == sep;
    assert s[..|a|] == a;
    assert IndexOf(s, sep) == Some(|a|);
    assert s[|a| + 1..] == b;
  }

  /** The text before the first `c`, the whole string when there is none;
      this is `strings.SplitN(s, c, 2)[0]`. */
  function Before(s: string, c: char): (r: string)
    ensures |r| <= |s|
  {
    match IndexOf(s, c)
    case None => s
    case Some(i) => s[..i]
  }

  /** The text before the first `c` is everything up to it. */
  lemma BeforeFirst(a: string, c: char, b: string)
    requires c !in a
    ensures Before(a + [c] + b, c) == a
  {
    var s := a + [c] + b;
    assert s[|a|] == c;
    assert s[..|a|] == a;
  }

  /** The text before the first `c` holds no `c`. */
  lemma BeforeLacks(s: string, c: char)
    ensures c !in Before(s, c)
  {
    match IndexOf(s, c)
    case None =>
    case Some(i) =>
      assert forall j :: 0 <= j < i ==> Before(s, c)[j] == s[j];
  }

  /** Trimming keeps a part of the string, so it adds no character. */
  lemma TrimSpaceLacks(s: string, c: char)
    requires c !in s
    ensures c !in TrimSpace(s)
  {
    var r := TrimRight(s);
    TrimRightPrefix(s);
    TrimLeftSuffix(r);
    assert forall i :: 0 <= i < |r| ==> r[i] == s[i];
    var t := TrimSpace(s);
    assert forall i :: 0 <= i < |t| ==> t[i] == r[|r| - |t| + i];
  }

  /** The longest prefix without whitespace. */
  function Word(s: string): (w: string)
    ensures |w| <= |s| && w == s[..|w|]
    ensures forall i :: 0 <= i < |w| ==> !IsSpace(w[i])
    ensures |w| < |s| ==> IsSpace(s[|w|])
  {
    if s == [] || IsSpace(s[0]) then [] else [s[0]] + Word(s[1..])
  }

  /** `strings.Fields`: the maximal runs of non-whitespace, in order. */
  function Fields(s: string): (r: seq<string>)
    decreases |s|
  {
    var t := TrimLeft(s);
    if t == [] then []
    else
      var w := Word(t);
      [w] + Fields(t[|w|..])
  }

  /** The first word of a string that starts with a word followed by whitespace or
      nothing is that word. */
  lemma {:induction false} WordOf(w: string, rest: string)
    requires NoSpace(w)
    requires rest == [] || IsSpace(rest[0])
    ensures Word(w + rest) == w
    decreases |w|
  {
    if w == [] {
      assert w + rest == rest;
    } else {
      assert (w + rest)[1..] == w[1..] + rest;
      WordOf(w[1..], rest);
    }
  }

  predicate NoSpace(s: string) {
    forall i :: 0 <= i < |s| ==> !IsSpace(s[i])
  }

  /** A space and a word split into that one field. */
  lemma SpaceThenWord(b: string)
    requires b != [] && NoSpace(b)
    ensures Fields(" " + b) == [b]
  {
    assert TrimLeft(" " + b) == b by {
      assert (" " + b)[1..] == b;
    }
    WordOf(b, "");
    assert b + "" == b;
    assert b[|b|..] == [];
  }

  /** A word, one space and a word split into those two fields. */
  lemma TwoFields(a: string, b: string)
    requires a != [] && b != [] && NoSpace(a) && NoSpace(b)
    ensures Fields(a + " " + b) == [a, b]
  {
    var s := a + " " + b;
    assert TrimLeft(s) == s;
    assert Word(s) == a by {
      WordOf(a, " " + b);
      assert s == a + (" " + b);
    }
    assert s[|a|..] == " " + b;
    SpaceThenWord(b);
  }

  function LowerChar(c: char): char {
    if 'A' <= c <= 'Z' then (c as int + 32) as char else c
  }

  /** `strings.ToLower` on ASCII letters. */
  function ToLower(s: string): (r: string)
    ensures |r| == |s|
    ensures forall i :: 0 <= i < |s| ==> r[i] == LowerChar(s[i])
  {
    seq(|s|, i requires 0 <= i < |s| => LowerChar(s[i]))
  }

  /** Lower-casing keeps whitespace and non-whitespace apart, so it commutes with
      trimming. */
  lemma {:induction false} TrimRightLower(s: string)
    ensures TrimRight(ToLower(s)) == ToLower(TrimRight(s))
    decreases |s|
  {
    if s != [] {
      var init := s[..|s| - 1];
      assert ToLower(s)[..|s| - 1] == ToLower(init);
      if IsSpace(s[|s| - 1]) {
        TrimRightLower(init);
      }
    }
  }

  lemma {:induction false} TrimLeftLower(s: string)
    ensures TrimLeft(ToLower(s)) == ToLower(TrimLeft(s))
    decreases |s|
  {
    if s != [] {
      assert ToLower(s)[1..] == ToLower(s[1..]);
      if IsSpace(s[0]) {
        TrimLeftLower(s[1..]);
      }
    }
  }

  lemma TrimSpaceLower(s: string)
    ensures TrimSpace(ToLower(s)) == ToLower(TrimSpace(s))
  {
    TrimRightLower(s);
    TrimLeftLower(TrimRight(s));
  }

  predicate IsDigit(c: char) {
    '0' <= c <= '9'
  }

  predicate AllDigits(s: string) {
    forall i :: 0 <= i < |s| ==> IsDigit(s[i])
  }

  /** The value of a string of decimal digits. */
  function DigitsValue(s: string): nat
    requires AllDigits(s)
  {
    if s == [] then 0 else DigitsValue(s[..|s| - 1]) * 10 + (s[|s| - 1] as int - '0' as int)
  }

  /** `strconv.Atoi`: an optional sign followed by at least one decimal digit and
      nothing else; anything else is an error, here `None`. */
  function Atoi(s: string): (r: Option<int>)
    ensures r.Some? ==> s != []
  {
    if s == [] then None
    else if s[0] == '+' || s[0] == '-' then
      if |s| > 1 && AllDigits(s[1..]) then
        var v: int := DigitsValue(s[1..]);
        Some(if s[0] == '-' then -v else v)
      else None
    else if AllDigits(s) then Some(DigitsValue(s))
    else None
  }

  /** The decimal digits of `n` without leading zeros (`%d` of a non-negative number);
      reading them back gives `n`. */
  function NatToDigits(n: nat): (r: string)
    ensures |r| >= 1 && AllDigits(r)
    ensures DigitsValue(r) == n
    ensures n >= 10 ==> r[0] != '0'
  {
    var d := ['0' + (n % 10) as char];
    if n < 10 then d
    else
      var r := NatToDigits(n / 10) + d;
      assert r[..|r| - 1] == NatToDigits(n / 10);
      r
  }

  /** A leading zero does not change the value of a digit string. */
  lemma {:induction false} DigitsValueLeadingZero(s: string)
    requires AllDigits(s)
    ensures AllDigits("0" + s) && DigitsValue("0" + s) == DigitsValue(s)
    decreases |s|
  {
    if s != [] {
      var t := "0" + s;
      assert t[..|t| - 1] == "0" + s[..|s| - 1];
      DigitsValueLeadingZero(s[..|s| - 1]);
    }
  }

  /** A non-empty digit string is read as its value. */
  lemma AtoiDigits(s: string)
    requires s != [] && AllDigits(s)
    ensures Atoi(s) == Some(DigitsValue(s))
  {
    assert IsDigit(s[0]);
  }

  /** `strconv.Atoi` reads back what `%d` prints. */
  lemma AtoiNatToDigits(n: nat)
    ensures Atoi(NatToDigits(n)) == Some(n)
  {
    AtoiDigits(NatToDigits(n));
  }
}
