/** The two string operations the transcript logic is built from:
    JavaScript's `String.prototype.trim` and `Array.prototype.join(" ")`. */
module Text {

  /** The code points `trim` strips: the ECMAScript WhiteSpace set (tab,
      vertical tab, form feed, space, no-break space, byte order mark and
      every other Unicode "Zs" space) and the LineTerminator set. */
  predicate IsWhitespace(c: char) {
    c == '\t' || c == '\n' || c == '\U{000B}' || c == '\U{000C}' || c == '\r'
    || c == ' ' || c == '\U{00A0}' || c == '\U{1680}'
    || ('\U{2000}' <= c <= '\U{200A}')
    || c == '\U{2028}' || c == '\U{2029}' || c == '\U{202F}' || c == '\U{205F}'
    || c == '\U{3000}' || c == '\U{FEFF}'
  }

  predicate AllWhitespace(s: string) {
    forall i :: 0 <= i < |s| ==> IsWhitespace(s[i])
  }

  /** Neither end of `s` is whitespace. */
  predicate IsTrimmed(s: string) {
    s == [] || (!IsWhitespace(s[0]) && !IsWhitespace(s[|s| - 1]))
  }

  /** A committed segment as the recognition session stores it: non-empty and trimmed. */
  predicate IsSegment(s: string) {
    s != [] && IsTrimmed(s)
  }

  predicate AllSegments(parts: seq<string>) {
    forall i :: 0 <= i < |parts| ==> IsSegment(parts[i])
  }

  /** Appending a segment to a list of segments gives a list of segments. */
  lemma AppendSegment(parts: seq<string>, x: string)
    requires AllSegments(parts) && IsSegment(x)
    ensures AllSegments(parts + [x])
  {
    forall i | 0 <= i < |parts| + 1 ensures IsSegment((parts + [x])[i]) {
      if i < |parts| { assert (parts + [x])[i] == parts[i]; }
    }
  }

  /** The first index at or after `i` that does not hold whitespace (or `|s|`). */
  function SkipLeading(s: string, i: nat): (k: nat)
    requires i <= |s|
    ensures i <= k <= |s|
    ensures forall j :: i <= j < k ==> IsWhitespace(s[j])
    ensures k == |s| || !IsWhitespace(s[k])
    decreases |s| - i
  {
    if i < |s| && IsWhitespace(s[i]) then SkipLeading(s, i + 1) else i
  }

  /** The end of `s[lo..hi]` once its trailing whitespace is dropped. */
  function SkipTrailing(s: string, lo: nat, hi: nat): (k: nat)
    requires lo <= hi <= |s|
    ensures lo <= k <= hi
    ensures forall j :: k <= j < hi ==> IsWhitespace(s[j])
    ensures k == lo || !IsWhitespace(s[k - 1])
    decreases hi - lo
  {
    if lo < hi && IsWhitespace(s[hi - 1]) then SkipTrailing(s, lo, hi - 1) else hi
  }

  /** JavaScript's `s.trim()`: the part of `s` between its leading and trailing whitespace. */
  function Trim(s: string): (r: string)
    ensures IsTrimmed(r)
  {
    var start := SkipLeading(s, 0);
    s[start..SkipTrailing(s, start, |s|)]
  }

  /** `s` is `lead + trim(s) + trail` with `lead` and `trail` all whitespace. */
  lemma TrimSlices(s: string)
    ensures exists i :: (0 <= i <= i + |Trim(s)| <= |s| && Trim(s) == s[i..i + |Trim(s)|]
                         && AllWhitespace(s[..i]) && AllWhitespace(s[i + |Trim(s)|..]))
  {
    var i := SkipLeading(s, 0);
    var e := SkipTrailing(s, i, |s|);
    assert Trim(s) == s[i..e];
    var lead, trail := s[..i], s[e..];
    forall k | 0 <= k < |lead| ensures IsWhitespace(lead[k]) {
      assert lead[k] == s[k];
    }
    forall k | 0 <= k < |trail| ensures IsWhitespace(trail[k]) {
      assert trail[k] == s[e + k];
    }
  }

  /** `trim` gives the empty string exactly for an all-whitespace string. */
  lemma TrimEmpty(s: string)
    ensures Trim(s) == [] <==> AllWhitespace(s)
  {
  }

  /** A trimmed string is its own `trim`; hence `trim` is idempotent. */
  lemma TrimTrimmed(s: string)
    requires IsTrimmed(s)
    ensures Trim(s) == s
  {
    assert SkipLeading(s, 0) == 0;
  }

  /** JavaScript's `parts.join(" ")`. */
  function JoinSpaced(parts: seq<string>): string
  {
    if |parts| == 0 then ""
    else if |parts| == 1 then parts[0]
    else JoinSpaced(parts[..|parts| - 1]) + " " + parts[|parts| - 1]
  }

  /** Appending a part appends a separator and that part. */
  lemma JoinSpacedAppend(parts: seq<string>, x: string)
    requires parts != []
    ensures JoinSpaced(parts + [x]) == JoinSpaced(parts) + " " + x
  {
    assert (parts + [x])[..|parts|] == parts;
  }

  /** Joining non-empty trimmed segments gives a trimmed string, empty
      exactly when there are no segments. */
  lemma {:induction false} JoinSegments(parts: seq<string>)
    requires AllSegments(parts)
    ensures IsTrimmed(JoinSpaced(parts))
    ensures JoinSpaced(parts) == "" <==> parts == []
  {
    if |parts| > 1 {
      var init := parts[..|parts| - 1];
      assert AllSegments(init) by {
        forall i | 0 <= i < |init| ensures IsSegment(init[i]) {
          assert init[i] == parts[i];
        }
      }
      JoinSegments(init);
      var last := parts[|parts| - 1];
      assert IsSegment(last);
      var j := JoinSpaced(init) + " " + last;
      assert j[0] == JoinSpaced(init)[0];
      assert j[|j| - 1] == last[|last| - 1];
    } else if |parts| == 1 {
      assert IsSegment(parts[0]);
    }
  }
}
