/** The Python `str` operations the coordinator uses on wire text:
    `sub in s`, `s.split(sep)[1]`, `s.split()[0]` and `s.split("/")[-1]`. */
module Text {

  import opened Options

  /** `pat` occurs in `s` starting at index `i`. */
  predicate OccursAt(s: string, pat: string, i: nat)
  {
    i + |pat| <= |s| && s[i..i + |pat|] == pat
  }

  /** The index of the first occurrence of `pat` in `s` at or after `from`. */
  function FindFrom(s: string, pat: string, from: nat): (r: Option<nat>)
    requires pat != []
    ensures r.Some? ==> from <= r.value && OccursAt(s, pat, r.value)
    ensures r.Some? ==> forall j :: from <= j < r.value ==> !OccursAt(s, pat, j)
    ensures r.None? ==> forall j :: from <= j ==> !OccursAt(s, pat, j)
    decreases |s| - from
  {
    if |s| < from + |pat| then None
    else if s[from..from + |pat|] == pat then Some(from)
    else FindFrom(s, pat, from + 1)
  }

  /** The index of the first occurrence of `pat` in `s` (Python's `s.find(pat)`). */
  function Find(s: string, pat: string): (r: Option<nat>)
    requires pat != []
    ensures r.Some? ==> OccursAt(s, pat, r.value) && forall j :: 0 <= j < r.value ==> !OccursAt(s, pat, j)
    ensures r.None? ==> forall j :: 0 <= j ==> !OccursAt(s, pat, j)
  {
    FindFrom(s, pat, 0)
  }

  /** Python's `pat in s` for two strings. */
  predicate Contains(s: string, pat: string)
    requires pat != []
  {
    Find(s, pat).Some?
  }

  /** An occurrence in a suffix is an occurrence in the whole text. */
  lemma OccursInSuffix(s: string, pat: string, off: nat, j: nat)
    requires off <= |s| && OccursAt(s[off..], pat, j)
    ensures OccursAt(s, pat, off + j)
  {
    assert s[off..][j..j + |pat|] == s[off + j..off + j + |pat|];
  }

  /** A prefix of a text has no occurrence the text does not have. */
  lemma OccursInPrefix(s: string, pat: string, n: nat, k: nat)
    requires n <= |s| && OccursAt(s[..n], pat, k)
    ensures OccursAt(s, pat, k)
  {
    assert s[..n][k..k + |pat|] == s[k..k + |pat|];
  }

  /** Python's `s.split(sep)[1]` where `sep in s`: the text between the first
      occurrence of `sep` and the next one, or the end of `s`. */
  function SecondPiece(s: string, sep: string): (r: string)
    requires sep != [] && Contains(s, sep)
    ensures var i := Find(s, sep).value; i + |sep| + |r| <= |s| && r == s[i + |sep|..i + |sep| + |r|]
    ensures var i := Find(s, sep).value; i + |sep| + |r| == |s| || OccursAt(s, sep, i + |sep| + |r|)
    ensures forall j :: 0 <= j ==> !OccursAt(r, sep, j)
  {
    var i := Find(s, sep).value;
    var rest := s[i + |sep|..];
    var n := PieceEnd(rest, sep);
    assert forall k :: 0 <= k ==> !OccursAt(rest[..n], sep, k) by {
      forall k | 0 <= k && OccursAt(rest[..n], sep, k) ensures false {
        OccursInPrefix(rest, sep, n, k);
      }
    }
    assert rest[..n] == s[i + |sep|..i + |sep| + n];
    if n < |rest| then
      OccursInSuffix(s, sep, i + |sep|, n);
      rest[..n]
    else
      rest[..n]
  }

  /** Where a piece of `rest` split at `sep` ends: the first occurrence of
      `sep`, or the end of `rest`. */
  function PieceEnd(rest: string, sep: string): (n: nat)
    requires sep != []
    ensures n <= |rest| && (n == |rest| || OccursAt(rest, sep, n))
    ensures forall k :: 0 <= k < n ==> !OccursAt(rest, sep, k)
  {
    match Find(rest, sep)
    case None => |rest|
    case Some(j) => j
  }

  /** No occurrence of `sep` starts inside the second piece, even where `sep`
      overlaps itself, so it is the piece `split` returns. */
  lemma SecondPieceHasNoInnerOccurrence(s: string, sep: string)
    requires sep != [] && Contains(s, sep)
    ensures var i := Find(s, sep).value;
      forall p :: i + |sep| <= p < i + |sep| + |SecondPiece(s, sep)| ==> !OccursAt(s, sep, p)
  {
    var i := Find(s, sep).value;
    var rest := s[i + |sep|..];
    assert |SecondPiece(s, sep)| == PieceEnd(rest, sep);
    NoOccurrenceInSuffix(s, sep, i + |sep|, PieceEnd(rest, sep));
  }

  /** No occurrence among the first `n` positions of the suffix from `off` is
      no occurrence at positions `off` to `off + n` of the text. */
  lemma NoOccurrenceInSuffix(s: string, pat: string, off: nat, n: nat)
    requires off <= |s| && forall k :: 0 <= k < n ==> !OccursAt(s[off..], pat, k)
    ensures forall p :: off <= p < off + n ==> !OccursAt(s, pat, p)
  {
    forall p | off <= p < off + n && OccursAt(s, pat, p) ensures false {
      SuffixHasOccurrence(s, pat, off, p);
    }
  }

  /** An occurrence at or after `off` is an occurrence in the suffix from `off`. */
  lemma SuffixHasOccurrence(s: string, pat: string, off: nat, p: nat)
    requires off <= p && OccursAt(s, pat, p)
    ensures OccursAt(s[off..], pat, p - off)
  {
    assert s[off..][p - off..p - off + |pat|] == s[p..p + |pat|];
  }

  /** The characters for which Python's `str.isspace()` holds; `str.split()`
      with no argument splits on runs of them. */
  predicate IsSpace(c: char)
  {
    c == ' ' || ('\t' <= c <= '\r') || ('\U{1C}' <= c <= '\U{1F}') ||
    c == '\U{85}' || c == '\U{A0}' || c == '\U{1680}' ||
    ('\U{2000}' <= c <= '\U{200A}') || c == '\U{2028}' || c == '\U{2029}' ||
    c == '\U{202F}' || c == '\U{205F}' || c == '\U{3000}'
  }

  predicate AllSpace(s: string)
  {
    forall k :: 0 <= k < |s| ==> IsSpace(s[k])
  }

  predicate NoSpace(s: string)
  {
    forall k :: 0 <= k < |s| ==> !IsSpace(s[k])
  }

  /** `s` with its leading whitespace removed. */
  function SkipSpaces(s: string): (r: string)
    ensures |r| <= |s| && r == s[|s| - |r|..]
    ensures AllSpace(s[..|s| - |r|])
    ensures r == [] || !IsSpace(r[0])
  {
    if s == [] || !IsSpace(s[0]) then s
    else
      var r := SkipSpaces(s[1..]);
      assert s[1..][..|s[1..]| - |r|] == s[1..|s| - |r|];
      r
  }

  /** The longest prefix of `s` without whitespace. */
  function TakeWord(s: string): (r: string)
    ensures |r| <= |s| && r == s[..|r|]
    ensures NoSpace(r)
    ensures |r| < |s| ==> IsSpace(s[|r|])
  {
    if s == [] || IsSpace(s[0]) then []
    else [s[0]] + TakeWord(s[1..])
  }

  /** Text that keeps something after its leading whitespace is not all
      whitespace. */
  lemma NotAllSpace(s: string)
    requires SkipSpaces(s) != []
    ensures !AllSpace(s)
  {
    var t := SkipSpaces(s);
    assert s[|s| - |t|] == t[0];
  }

  /** Python's `s.split()[0]`: the first whitespace-delimited token, or None
      where `split()` returns an empty list and the indexing raises IndexError. */
  function FirstToken(s: string): (r: Option<string>)
    ensures r.None? <==> AllSpace(s)
    ensures r.Some? ==> r.value != [] && NoSpace(r.value)
  {
    var t := SkipSpaces(s);
    if t == [] then
      assert s[..|s|] == s;
      None
    else
      NotAllSpace(s);
      Some(TakeWord(t))
  }

  /** A prefix of a suffix of a text is a slice of the text. */
  lemma SliceOfSuffix(s: string, t: string, n: nat)
    requires |t| <= |s| && t == s[|s| - |t|..] && n <= |t|
    ensures t[..n] == s[|s| - |t|..|s| - |t| + n]
    ensures n < |t| ==> t[n] == s[|s| - |t| + n]
  {
  }

  /** `w` starts at index `j` of `s`, only whitespace comes before it, and
      whitespace or the end of `s` follows it. */
  predicate TokenSpot(s: string, j: nat, w: string)
  {
    j + |w| <= |s| && AllSpace(s[..j]) && s[j..j + |w|] == w && (j + |w| == |s| || IsSpace(s[j + |w|]))
  }

  /** The first token follows a run of whitespace and is followed by
      whitespace or the end of the text. */
  lemma FirstTokenPlace(s: string)
    requires FirstToken(s).Some?
    ensures exists j :: TokenSpot(s, j, FirstToken(s).value)
  {
    var t := SkipSpaces(s);
    var w := TakeWord(t);
    var j := |s| - |t|;
    assert FirstToken(s).value == w;
    SliceOfSuffix(s, t, |w|);
    assert s[j..j + |w|] == w;
    assert j + |w| == |s| || IsSpace(s[j + |w|]);
    assert TokenSpot(s, j, w);
  }

  /** A token placed in a slice `s[i..i + |piece|]` is placed in `s` at the
      same offset from `i`. */
  lemma SpotInText(s: string, i: nat, piece: string, j: nat, w: string)
    requires i + |piece| <= |s| && piece == s[i..i + |piece|] && TokenSpot(piece, j, w)
    ensures AllSpace(s[i..i + j]) && s[i + j..i + j + |w|] == w
    ensures j + |w| == |piece| || IsSpace(s[i + j + |w|])
  {
    assert j + |w| <= |piece| && piece[j..j + |w|] == w;
    assert s[i..i + j] == piece[..j];
    forall k | 0 <= k < |w| ensures s[i + j + k] == w[k] {
      assert w[k] == piece[j + k];
    }
    assert s[i + j..i + j + |w|] == w;
    if j + |w| < |piece| {
      assert s[i + j + |w|] == piece[j + |w|];
    }
  }

  /** Python's `s.split("/")[-1]`: the text after the last `/`, or all of `s`
      when it has none. It is the longest suffix of `s` without a `/`. */
  function AfterLastSlash(s: string): (r: string)
    ensures '/' !in r
    ensures |r| <= |s| && r == s[|s| - |r|..]
    ensures |r| < |s| ==> s[|s| - |r| - 1] == '/'
  {
    if s == [] || s[|s| - 1] == '/' then []
    else AfterLastSlash(s[..|s| - 1]) + [s[|s| - 1]]
  }
}
