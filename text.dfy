/** The .NET string operations the helpers library relies on, written out:
    `Trim`, `TrimEnd(char)`, `StartsWith`, `Contains`, `Split(char,
    RemoveEmptyEntries)` and the decimal rendering of an integer that string
    concatenation performs. */
module Text {

  datatype Option<+T> = None | Some(value: T)

  /** `char.IsWhiteSpace`: the Unicode separators plus the control characters
      U+0009..U+000D and U+0085. */
  predicate IsWhiteSpace(c: char) {
    || c == ' '
    || ('\t' <= c <= '\r')
    || c == '\U{85}' || c == '\U{A0}' || c == '\U{1680}'
    || ('\U{2000}' <= c <= '\U{200A}')
    || c == '\U{2028}' || c == '\U{2029}' || c == '\U{202F}' || c == '\U{205F}'
    || c == '\U{3000}'
  }

  predicate AllWhiteSpace(s: string) {
    forall k :: 0 <= k < |s| ==> IsWhiteSpace(s[k])
  }

  /** `string.TrimStart()`: drops the longest prefix of white space. */
  function TrimStart(s: string): (r: string)
    ensures |r| <= |s| && r == s[|s| - |r|..]
    ensures forall k :: 0 <= k < |s| - |r| ==> IsWhiteSpace(s[k])
    ensures r == [] || !IsWhiteSpace(r[0])
  {
    if s != [] && IsWhiteSpace(s[0]) then
      var r := TrimStart(s[1..]);
      assert forall k :: 1 <= k < |s| - |r| ==> s[k] == s[1..][k - 1];
      r
    else s
  }

  /** Drops the longest suffix whose characters all satisfy `drop`. */
  function TrimEndBy(s: string, drop: char -> bool): (r: string)
    ensures |r| <= |s| && r == s[..|r|]
    ensures forall k :: |r| <= k < |s| ==> drop(s[k])
    ensures r == [] || !drop(r[|r| - 1])
  {
    if s != [] && drop(s[|s| - 1]) then TrimEndBy(s[..|s| - 1], drop) else s
  }

  /** `r` sits at offset `i` of `s`, everything around it is white space and
      `r` neither starts nor ends with white space. */
  ghost predicate TrimmedFrom(s: string, r: string, i: nat) {
    && i + |r| <= |s|
    && s[i..i + |r|] == r
    && (forall k :: 0 <= k < i ==> IsWhiteSpace(s[k]))
    && (forall k :: i + |r| <= k < |s| ==> IsWhiteSpace(s[k]))
    && (r == [] || (!IsWhiteSpace(r[0]) && !IsWhiteSpace(r[|r| - 1])))
  }

  /** Trimming the front and then the back leaves the text in place. */
  lemma TrimmedInTwoSteps(s: string, t: string, r: string)
    requires |t| <= |s| && t == s[|s| - |t|..] && (t == [] || !IsWhiteSpace(t[0]))
    requires forall k :: 0 <= k < |s| - |t| ==> IsWhiteSpace(s[k])
    requires |r| <= |t| && r == t[..|r|] && (r == [] || !IsWhiteSpace(r[|r| - 1]))
    requires forall k :: |r| <= k < |t| ==> IsWhiteSpace(t[k])
    ensures TrimmedFrom(s, r, |s| - |t|)
  {
    var i := |s| - |t|;
    forall k | i + |r| <= k < |s| ensures IsWhiteSpace(s[k]) {
      assert s[k] == t[k - i];
    }
  }

  /** `string.Trim()`. */
  function Trim(s: string): (r: string)
    ensures exists i :: TrimmedFrom(s, r, i)
    ensures r == [] || (!IsWhiteSpace(r[0]) && !IsWhiteSpace(r[|r| - 1]))
  {
    var t := TrimStart(s);
    var r := TrimEndBy(t, IsWhiteSpace);
    TrimmedInTwoSteps(s, t, r);
    assert TrimmedFrom(s, r, |s| - |t|);
    r
  }

  /** There is only one way to cut white space off both ends of a string. */
  lemma TrimmedUnique(s: string, r: string, i: nat, r': string, i': nat)
    requires TrimmedFrom(s, r, i) && TrimmedFrom(s, r', i')
    ensures r == r'
  {
    if r != [] && r' != [] {
      assert s[i] == r[0] && s[i'] == r'[0];
      assert i == i';
      assert s[i + |r| - 1] == r[|r| - 1] && s[i' + |r'| - 1] == r'[|r'| - 1];
      assert |r| == |r'|;
    }
  }

  /** Whatever string is found trimmed inside `s` is what `Trim` returns. */
  lemma TrimFinds(s: string, r: string, i: nat)
    requires TrimmedFrom(s, r, i)
    ensures Trim(s) == r
  {
    var r' := Trim(s);
    var i': nat :| TrimmedFrom(s, r', i');
    TrimmedUnique(s, r, i, r', i');
  }

  /** Padding `s` with white space moves its trimmed part but keeps it so. */
  lemma PaddedTrimmedFrom(before: string, s: string, after: string, r: string, i: nat)
    requires AllWhiteSpace(before) && AllWhiteSpace(after) && TrimmedFrom(s, r, i)
    ensures TrimmedFrom(before + s + after, r, |before| + i)
  {
    var padded := before + s + after;
    var j := |before| + i;
    assert padded[j..j + |r|] == s[i..i + |r|];
    forall k | 0 <= k < j ensures IsWhiteSpace(padded[k]) {
      if k < |before| { assert padded[k] == before[k]; } else { assert padded[k] == s[k - |before|]; }
    }
    forall k | j + |r| <= k < |padded| ensures IsWhiteSpace(padded[k]) {
      if k < |before| + |s| { assert padded[k] == s[k - |before|]; }
      else { assert padded[k] == after[k - |before| - |s|]; }
    }
  }

  /** Any white space added around a string is removed again by `Trim`. */
  lemma TrimIgnoresPadding(before: string, s: string, after: string)
    requires AllWhiteSpace(before) && AllWhiteSpace(after)
    ensures Trim(before + s + after) == Trim(s)
  {
    var r := Trim(s);
    var i: nat :| TrimmedFrom(s, r, i);
    TrimPadded(before, s, after, r, i);
  }

  /** `Trim` of a padded string finds what was trimmed inside it. */
  lemma TrimPadded(before: string, s: string, after: string, r: string, i: nat)
    requires AllWhiteSpace(before) && AllWhiteSpace(after) && TrimmedFrom(s, r, i)
    ensures Trim(before + s + after) == r
  {
    PaddedTrimmedFrom(before, s, after, r, i);
    TrimFinds(before + s + after, r, |before| + i);
  }

  /** A string with no white space at either end is its own trim. */
  lemma TrimKeeps(s: string)
    requires s == [] || (!IsWhiteSpace(s[0]) && !IsWhiteSpace(s[|s| - 1]))
    ensures Trim(s) == s
  {
    assert s[0..|s|] == s;
    TrimFinds(s, s, 0);
  }

  /** Trimming twice is trimming once. */
  lemma TrimIdempotent(s: string)
    ensures Trim(Trim(s)) == Trim(s)
  {
    TrimKeeps(Trim(s));
  }

  /** `string.TrimEnd(c)`: removes every trailing occurrence of `c`. */
  function TrimEndChar(s: string, c: char): (r: string)
    ensures |r| <= |s| && r == s[..|r|]
    ensures forall k :: |r| <= k < |s| ==> s[k] == c
    ensures r == [] || r[|r| - 1] != c
  {
    TrimEndBy(s, x => x == c)
  }

  /** `p` occurs in `s` at offset `i`. */
  predicate IsAt(s: string, i: nat, p: string) {
    i + |p| <= |s| && s[i..i + |p|] == p
  }

  /** An occurrence agrees with the pattern at each of its positions. */
  lemma AtChar(s: string, i: nat, p: string, j: nat)
    ensures IsAt(s, i, p) && j < |p| ==> s[i + j] == p[j]
  {
    if IsAt(s, i, p) && j < |p| {
      assert s[i..i + |p|][j] == s[i + j];
    }
  }

  /** Ordinal `s.StartsWith(p)`. */
  predicate StartsWith(s: string, p: string) {
    IsAt(s, 0, p)
  }

  /** The ordinal prefix test agrees with comparing character by character. */
  lemma StartsWithAgrees(s: string, p: string)
    ensures StartsWith(s, p) <==> |p| <= |s| && forall j :: 0 <= j < |p| ==> s[j] == p[j]
  {
    if |p| <= |s| {
      assert forall j :: 0 <= j < |p| ==> s[0..|p|][j] == s[j];
    }
  }

  /** Ordinal `s.IndexOf(p, from)`: the first occurrence of `p` at or after `from`. */
  function IndexOf(s: string, p: string, from: nat): (r: Option<nat>)
    ensures r.Some? ==> from <= r.value && IsAt(s, r.value, p)
    ensures r.Some? ==> forall k :: from <= k < r.value ==> !IsAt(s, k, p)
    ensures r.None? ==> forall k :: from <= k ==> !IsAt(s, k, p)
    decreases |s| + 1 - from
  {
    if from + |p| > |s| then None
    else if IsAt(s, from, p) then Some(from)
    else IndexOf(s, p, from + 1)
  }

  /** An occurrence with none before it, from `from` on, is what `IndexOf` finds. */
  lemma IndexOfFirst(s: string, p: string, from: nat, i: nat)
    requires from <= i && IsAt(s, i, p)
    requires forall k :: from <= k < i ==> !IsAt(s, k, p)
    ensures IndexOf(s, p, from) == Some(i)
  {
    assert IndexOf(s, p, from).Some?;
  }

  /** Ordinal `s.Contains(p)`. */
  predicate Contains(s: string, p: string) {
    IndexOf(s, p, 0).Some?
  }

  lemma ContainsMeansOccurs(s: string, p: string)
    ensures Contains(s, p) <==> exists i :: IsAt(s, i, p)
  {
    if exists i :: IsAt(s, i, p) {
      var i :| IsAt(s, i, p);
      assert IndexOf(s, p, 0).Some?;
    }
  }

  /** Every piece of `s` between separators, empty pieces included (the
      behaviour of `Split(sep)` without options). */
  function SplitOn(s: string, sep: char): (r: seq<string>)
    ensures |r| >= 1
    ensures forall j, k :: 0 <= j < |r| && 0 <= k < |r[j]| ==> r[j][k] != sep
  {
    if s == [] then [""]
    else
      var rest := SplitOn(s[1..], sep);
      if s[0] == sep then [""] + rest
      else [[s[0]] + rest[0]] + rest[1..]
  }

  /** `string.Join(sep, pieces)`. */
  function Join(pieces: seq<string>, sep: char): string
    requires |pieces| >= 1
  {
    if |pieces| == 1 then pieces[0] else pieces[0] + [sep] + Join(pieces[1..], sep)
  }

  /** Splitting loses nothing: joining the pieces gives the string back. */
  lemma {:induction false} JoinSplitOn(s: string, sep: char)
    ensures Join(SplitOn(s, sep), sep) == s
  {
    if s != [] {
      var rest := SplitOn(s[1..], sep);
      JoinSplitOn(s[1..], sep);
      if s[0] == sep {
        assert SplitOn(s, sep)[1..] == rest;
      } else {
        var pieces := SplitOn(s, sep);
        assert pieces[1..] == rest[1..];
        if |rest| > 1 {
          assert Join(rest, sep) == rest[0] + [sep] + Join(rest[1..], sep);
        }
      }
    }
  }

  /** The pieces that are not empty, in order (`StringSplitOptions.RemoveEmptyEntries`). */
  function NonEmpty(pieces: seq<string>): (r: seq<string>)
    ensures |r| <= |pieces|
    ensures forall j :: 0 <= j < |r| ==> r[j] != ""
    ensures forall x :: x in r <==> x in pieces && x != ""
  {
    if pieces == [] then []
    else if pieces[0] == "" then NonEmpty(pieces[1..])
    else [pieces[0]] + NonEmpty(pieces[1..])
  }

  /** Removing the empty pieces keeps the others in their order: it
      distributes over concatenation. */
  lemma {:induction false} NonEmptyAppend(a: seq<string>, b: seq<string>)
    ensures NonEmpty(a + b) == NonEmpty(a) + NonEmpty(b)
  {
    if a != [] {
      assert (a + b)[1..] == a[1..] + b;
      NonEmptyAppend(a[1..], b);
    } else {
      assert a + b == b;
    }
  }

  /** `s.Split(sep, StringSplitOptions.RemoveEmptyEntries)`. */
  function SplitNonEmpty(s: string, sep: char): (r: seq<string>)
    ensures forall j :: 0 <= j < |r| ==> r[j] != "" && sep !in r[j]
  {
    var pieces := SplitOn(s, sep);
    assert forall x :: x in pieces ==> sep !in x;
    NonEmpty(pieces)
  }

  /** Splitting leaves no piece exactly when the string is separators only
      (the empty string included). */
  lemma {:induction false} SplitNonEmptyIsEmptyIff(s: string, sep: char)
    ensures SplitNonEmpty(s, sep) == [] <==> forall k :: 0 <= k < |s| ==> s[k] == sep
  {
    if s != [] {
      SplitNonEmptyIsEmptyIff(s[1..], sep);
      var rest := SplitOn(s[1..], sep);
      if s[0] == sep {
        assert SplitOn(s, sep) == [""] + rest;
        assert SplitOn(s, sep)[1..] == rest;
        assert (forall k :: 0 <= k < |s| ==> s[k] == sep) <==>
               (forall k :: 0 <= k < |s| - 1 ==> s[1..][k] == sep) by {
          if forall k :: 0 <= k < |s| - 1 ==> s[1..][k] == sep {
            forall k | 0 <= k < |s| ensures s[k] == sep {
              if k > 0 { assert s[k] == s[1..][k - 1]; }
            }
          }
        }
      } else {
        assert SplitOn(s, sep)[0] != "";
      }
    }
  }

  function DigitChar(d: nat): (c: char)
    requires d < 10
    ensures '0' <= c <= '9'
  {
    ('0' as int + d) as char
  }

  /** The decimal value of a string of digits. */
  function DigitsValue(s: string): nat
    requires forall k :: 0 <= k < |s| ==> '0' <= s[k] <= '9'
  {
    if s == [] then 0 else 10 * DigitsValue(s[..|s| - 1]) + (s[|s| - 1] - '0') as nat
  }

  /** The decimal rendering of a non-negative integer, as string concatenation does it. */
  function NatToString(n: nat): (s: string)
    ensures |s| >= 1
    ensures forall k :: 0 <= k < |s| ==> '0' <= s[k] <= '9'
    ensures |s| > 1 ==> s[0] != '0'
  {
    if n < 10 then [DigitChar(n)] else NatToString(n / 10) + [DigitChar(n % 10)]
  }

  /** The rendering can be read back: the decimal digits denote `n`. */
  lemma {:induction false} NatToStringValue(n: nat)
    ensures DigitsValue(NatToString(n)) == n
  {
    if n >= 10 {
      NatToStringValue(n / 10);
      var s := NatToString(n);
      assert s[..|s| - 1] == NatToString(n / 10);
    }
  }

  /** The decimal rendering of an integer: a minus sign exactly for a
      negative value, then the digits of its magnitude. */
  function IntToString(n: int): (s: string)
    ensures |s| >= 1 && (s[0] == '-' <==> n < 0)
    ensures var digits := if n < 0 then s[1..] else s;
      && (forall k :: 0 <= k < |digits| ==> '0' <= digits[k] <= '9')
      && DigitsValue(digits) == (if n < 0 then -n else n)
      && (|digits| > 1 ==> digits[0] != '0')
  {
    if n >= 0 then
      NatToStringValue(n);
      NatToString(n)
    else
      NatToStringValue(-n);
      var s := "-" + NatToString(-n);
      assert s[1..] == NatToString(-n);
      s
  }
}
