/** What `Regex.Match(text).Value` returns for the field patterns
    `(?<=<T>)(.*?)(?=</T>)` of the command reader, stated without regexes.
    The engine tries start positions from left to right; a start `p` qualifies
    when `open` ends at `p`; the lazy `.*?` then grows one character at a time
    until `close` begins, and `.` never consumes a line feed. A failed match
    has the empty value. */
module TagMatch {
  import opened Text

  predicate NoLineFeed(text: string, p: nat, q: nat)
    requires p <= q <= |text|
  {
    forall k :: p <= k < q ==> text[k] != '\n'
  }

  /** `text[p..q]` is a candidate match: `open` ends at `p`, `close` starts
      at `q`, and no line feed lies in between. */
  predicate IsMatch(text: string, open: string, close: string, p: nat, q: nat) {
    && |open| <= p <= q
    && IsAt(text, p - |open|, open)
    && IsAt(text, q, close)
    && NoLineFeed(text, p, q)
  }

  /** The match the engine reports: the leftmost start, and for it the
      shortest extent. */
  ghost predicate Selected(text: string, open: string, close: string, p: nat, q: nat) {
    && IsMatch(text, open, close, p, q)
    && (forall p': nat, q': nat :: IsMatch(text, open, close, p', q') ==> p <= p')
    && (forall q': nat :: IsMatch(text, open, close, p, q') ==> q <= q')
  }

  /** Searches the occurrences of `open` that begin at or after `i`. */
  function FindFrom(text: string, open: string, close: string, i: nat): (r: Option<(nat, nat)>)
    ensures r.Some? ==> IsMatch(text, open, close, r.value.0, r.value.1) && i + |open| <= r.value.0
    ensures r.Some? ==> forall p': nat, q': nat :: i + |open| <= p' < r.value.0 ==> !IsMatch(text, open, close, p', q')
    ensures r.Some? ==> forall q': nat :: r.value.0 <= q' < r.value.1 ==> !IsAt(text, q', close)
    ensures r.None? ==> forall p': nat, q': nat :: i + |open| <= p' ==> !IsMatch(text, open, close, p', q')
    decreases |text| + 1 - i
  {
    if i > |text| then None
    else
      match IndexOf(text, open, i)
      case None => None
      case Some(j) =>
        var p := j + |open|;
        match IndexOf(text, close, p)
        case None => None
        case Some(q) =>
          if NoLineFeed(text, p, q) then Some((p, q))
          else
            assert forall q': nat :: !IsMatch(text, open, close, p, q');
            FindFrom(text, open, close, j + 1)
  }

  /** The (start, end) of the reported match, if there is one. */
  function FindMatch(text: string, open: string, close: string): (r: Option<(nat, nat)>)
    ensures r.Some? ==> Selected(text, open, close, r.value.0, r.value.1)
    ensures r.None? ==> forall p: nat, q: nat :: !IsMatch(text, open, close, p, q)
  {
    var r := FindFrom(text, open, close, 0);
    if r.Some? then
      assert forall q': nat :: IsMatch(text, open, close, r.value.0, q') ==> r.value.1 <= q';
      r
    else r
  }

  /** `Regex.Match(text).Value` for the pattern `(?<=open)(.*?)(?=close)`. */
  function ExtractBetween(text: string, open: string, close: string): (r: string)
    ensures (exists p: nat, q: nat :: Selected(text, open, close, p, q) && r == text[p..q])
         || ((forall p: nat, q: nat :: !IsMatch(text, open, close, p, q)) && r == "")
  {
    match FindMatch(text, open, close)
    case Some((p, q)) =>
      assert Selected(text, open, close, p, q);
      text[p..q]
    case None => ""
  }

  /** No `close` begins strictly inside the extent of a selected match. */
  lemma SelectedHasNoClose(text: string, open: string, close: string, p: nat, q: nat)
    requires |close| > 0 && Selected(text, open, close, p, q)
    ensures forall k: nat :: k + |close| <= q - p ==> !IsAt(text[p..q], k, close)
  {
    var r := text[p..q];
    assert |r| == q - p;
    forall k: nat | k + |close| <= |r| ensures !IsAt(r, k, close) {
      var m: nat := p + k;
      forall i | k <= i < k + |close| ensures r[i] == text[p + i] {}
      assert r[k..k + |close|] == text[m..m + |close|];
      assert NoLineFeed(text, p, m);
      assert IsAt(text, m, close) ==> IsMatch(text, open, close, p, m);
    }
  }

  /** A value holds no line feed, and no `close` tag when that tag is not
      empty: the value ends at the first `close` after the start. */
  lemma ExtractedIsClean(text: string, open: string, close: string)
    requires |close| > 0
    ensures forall k :: 0 <= k < |ExtractBetween(text, open, close)| ==> ExtractBetween(text, open, close)[k] != '\n'
    ensures !Contains(ExtractBetween(text, open, close), close)
  {
    var r := ExtractBetween(text, open, close);
    match FindMatch(text, open, close)
    case None =>
      assert r == "";
    case Some((p, q)) =>
      assert r == text[p..q];
      SelectedHasNoClose(text, open, close, p, q);
      ContainsMeansOccurs(r, close);
  }

  /** From offset `k` on, `s` agrees with `p` for as far as both go. */
  predicate Agrees(s: string, k: nat, p: string) {
    forall j :: 0 <= j < |p| && k + j < |s| ==> s[k + j] == p[j]
  }

  /** No position of `s` could begin `p`, even an occurrence of `p` that
      would run past the end of `s`. */
  predicate TagFree(s: string, p: string) {
    forall k :: 0 <= k < |s| ==> !Agrees(s, k, p)
  }

  /** Tag freedom is kept by concatenation. */
  lemma TagFreeAppend(a: string, b: string, p: string)
    requires TagFree(a, p) && TagFree(b, p)
    ensures TagFree(a + b, p)
  {
    forall k | 0 <= k < |a + b| ensures !Agrees(a + b, k, p) {
      if k < |a| {
        assert !Agrees(a, k, p);
        var j :| 0 <= j < |p| && k + j < |a| && a[k + j] != p[j];
        assert (a + b)[k + j] == a[k + j];
      } else {
        assert !Agrees(b, k - |a|, p);
        var j :| 0 <= j < |p| && k - |a| + j < |b| && b[k - |a| + j] != p[j];
        assert (a + b)[k + j] == b[k - |a| + j];
      }
    }
  }

  /** A string without the first character of `p` is free of it. */
  lemma TagFreeByFirst(s: string, p: string)
    requires |p| > 0
    requires forall k :: 0 <= k < |s| ==> s[k] != p[0]
    ensures TagFree(s, p)
  {
    forall k | 0 <= k < |s| ensures !Agrees(s, k, p) {
      assert s[k + 0] != p[0];
    }
  }

  /** A string in which every character that could begin `p` is followed
      by one that cannot continue it is free of `p`. */
  lemma TagFreeBySecond(s: string, p: string)
    requires |p| > 1
    requires forall k :: 0 <= k < |s| && s[k] == p[0] ==> k + 1 < |s| && s[k + 1] != p[1]
    ensures TagFree(s, p)
  {
    forall k | 0 <= k < |s| ensures !Agrees(s, k, p) {
      if s[k] == p[0] { assert s[k + 1] != p[1]; } else { assert s[k + 0] != p[0]; }
    }
  }

  /** Where a tag-free stretch sits inside a text, no occurrence of the tag
      begins in it. */
  lemma TagFreeNoStart(s: string, p: string, text: string, o: nat)
    requires TagFree(s, p)
    requires o + |s| <= |text| && text[o..o + |s|] == s
    ensures forall i :: o <= i < o + |s| ==> !IsAt(text, i, p)
  {
    forall i | o <= i < o + |s| ensures !IsAt(text, i, p) {
      var k := i - o;
      assert !Agrees(s, k, p);
      var j :| 0 <= j < |p| && k + j < |s| && s[k + j] != p[j];
      AtChar(text, i, p, j);
      assert text[i + j] == text[o..o + |s|][k + j];
    }
  }

  /** A field is read back from a record whatever surrounds it, provided no
      position before the field's tag could begin that tag, none inside the
      value could begin the closing tag, and the value holds no line feed. */
  lemma {:induction false} ExtractFromLayout(pre: string, open: string, v: string, close: string, post: string)
    requires TagFree(pre, open) && TagFree(v, close)
    requires forall k :: 0 <= k < |v| ==> v[k] != '\n'
    ensures ExtractBetween(pre + open + v + close + post, open, close) == v
  {
    var text := pre + open + v + close + post;
    var p := |pre| + |open|;
    var q := p + |v|;
    assert text[..|pre|] == pre;
    assert text[p - |open|..p] == open;
    assert text[q..q + |close|] == close;
    assert text[p..q] == v;
    assert IsMatch(text, open, close, p, q);
    TagFreeNoStart(pre, open, text, 0);
    TagFreeNoStart(v, close, text, p);
    match FindMatch(text, open, close)
    case None =>
    case Some((p', q')) =>
      assert p' == p;
  }

  /** A field whose opening tag never occurs reads as the empty string. */
  lemma ExtractAbsent(text: string, open: string, close: string)
    requires |open| > 0
    requires forall k :: 0 <= k < |text| ==> !IsAt(text, k, open)
    ensures ExtractBetween(text, open, close) == ""
  {
    forall p: nat, q: nat ensures !IsMatch(text, open, close, p, q) {
      if |open| <= p <= q && q <= |text| {
        assert !IsAt(text, p - |open|, open);
      }
    }
  }
}
