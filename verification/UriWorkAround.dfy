/**
 The custom protocol work-around: `{protocol}://` is rewritten to
 `{http_or_https}://{protocol}.` before navigation and back when the request
 is intercepted. Both rewrites are global string replacements; this file
 settles exactly when the second undoes the first.
 */
module UriWorkAround {

  /** `str::strip_prefix`, as a test. */
  predicate StartsWith(s: string, p: string) {
    p <= s
  }

  /** `str::replace`: every non-overlapping occurrence, leftmost first. */
  function Replace(s: string, pat: string, rep: string): string
    requires pat != ""
    decreases |s|
  {
    if s == "" then ""
    else if StartsWith(s, pat) then rep + Replace(s[|pat|..], pat, rep)
    else [s[0]] + Replace(s[1..], pat, rep)
  }

  function OriginalPrefix(protocol: string): (r: string)
    ensures r != ""
  {
    protocol + "://"
  }

  function WorkAroundPrefix(httpOrHttps: string, protocol: string): (r: string)
    ensures r != ""
  {
    httpOrHttps + "://" + protocol + "."
  }

  function Apply(uri: string, httpOrHttps: string, protocol: string): string {
    Replace(uri, OriginalPrefix(protocol), WorkAroundPrefix(httpOrHttps, protocol))
  }

  function Revert(uri: string, httpOrHttps: string, protocol: string): string {
    Replace(uri, WorkAroundPrefix(httpOrHttps, protocol), OriginalPrefix(protocol))
  }

  /** The chain of prefix tests in `is_work_around_uri`. */
  predicate IsWorkAround(uri: string, httpOrHttps: string, protocol: string) {
    && StartsWith(uri, httpOrHttps)
    && var rest := uri[|httpOrHttps|..];
    && StartsWith(rest, "://")
    && var rest := rest[3..];
    && StartsWith(rest, protocol)
    && StartsWith(rest[|protocol|..], ".")
  }

  // Occurrences and splitting.

  predicate OccursAt(s: string, pat: string, i: nat) {
    i + |pat| <= |s| && s[i..i + |pat|] == pat
  }

  ghost predicate Occurs(s: string, pat: string) {
    exists i: nat :: OccursAt(s, pat, i)
  }

  /** What is left between the occurrences that `Replace` rewrites. */
  function Split(s: string, pat: string): (r: seq<string>)
    requires pat != ""
    ensures r != []
    decreases |s|
  {
    if s == "" then [""]
    else if StartsWith(s, pat) then [""] + Split(s[|pat|..], pat)
    else
      var rest := Split(s[1..], pat);
      [[s[0]] + rest[0]] + rest[1..]
  }

  function Join(pieces: seq<string>, sep: string): string
    requires pieces != []
  {
    if |pieces| == 1 then pieces[0] else pieces[0] + sep + Join(pieces[1..], sep)
  }

  function ReplaceEach(pieces: seq<string>, pat: string, rep: string): (r: seq<string>)
    requires pat != ""
    ensures |r| == |pieces|
    ensures forall i | 0 <= i < |r| :: r[i] == Replace(pieces[i], pat, rep)
  {
    seq(|pieces|, i requires 0 <= i < |pieces| => Replace(pieces[i], pat, rep))
  }

  lemma JoinHead(c: char, pieces: seq<string>, sep: string)
    requires pieces != []
    ensures Join([[c] + pieces[0]] + pieces[1..], sep) == [c] + Join(pieces, sep)
  {
  }

  /** Replacing is splitting at the pattern and joining with the replacement. */
  lemma {:induction false} ReplaceIsJoinOfSplit(s: string, pat: string, rep: string)
    requires pat != ""
    ensures Replace(s, pat, rep) == Join(Split(s, pat), rep)
    decreases |s|
  {
    if s == "" {
    } else if StartsWith(s, pat) {
      ReplaceIsJoinOfSplit(s[|pat|..], pat, rep);
      assert ([""] + Split(s[|pat|..], pat))[1..] == Split(s[|pat|..], pat);
    } else {
      ReplaceIsJoinOfSplit(s[1..], pat, rep);
      JoinHead(s[0], Split(s[1..], pat), rep);
    }
  }

  /** Splitting loses nothing. */
  lemma SplitJoin(s: string, pat: string)
    requires pat != ""
    ensures Join(Split(s, pat), pat) == s
  {
  }

  /** No occurrence, no change. */
  lemma {:induction false} ReplaceAbsent(s: string, pat: string, rep: string)
    requires pat != "" && !Occurs(s, pat)
    ensures Replace(s, pat, rep) == s
    decreases |s|
  {
    if s != "" {
      assert !OccursAt(s, pat, 0);
      forall i: nat ensures !OccursAt(s[1..], pat, i) {
        assert !OccursAt(s, pat, i + 1);
        assert i + 1 + |pat| <= |s| ==> s[1..][i..i + |pat|] == s[i + 1..i + 1 + |pat|];
      }
      ReplaceAbsent(s[1..], pat, rep);
    }
  }

  /** A replacement by something shorter never lengthens, and shortens if there is an occurrence. */
  lemma {:induction false} ReplaceShrinks(s: string, pat: string, rep: string)
    requires |rep| < |pat|
    ensures |Replace(s, pat, rep)| <= |s|
    ensures Occurs(s, pat) ==> |Replace(s, pat, rep)| < |s|
    decreases |s|
  {
    if s == "" {
    } else if StartsWith(s, pat) {
      ReplaceShrinks(s[|pat|..], pat, rep);
    } else {
      ReplaceShrinks(s[1..], pat, rep);
      if i: nat :| OccursAt(s, pat, i) {
        assert i > 0;
        assert s[1..][i - 1..i - 1 + |pat|] == s[i..i + |pat|];
        assert OccursAt(s[1..], pat, i - 1);
      }
    }
  }

  // Words without a border.

  /** No proper nonempty prefix of `w` is also a suffix of it. */
  ghost predicate Unbordered(w: string) {
    forall k | 0 < k < |w| :: w[..k] != w[|w| - k..]
  }

  lemma MismatchedBorder(w: string, k: nat, i: nat)
    requires i < k < |w| && w[i] != w[|w| - k + i]
    ensures w[..k] != w[|w| - k..]
  {
    assert w[..k][i] != w[|w| - k..][i];
  }

  /** The work-around prefix has no border: its last character and its only `://` pin every overlap. */
  lemma WorkAroundPrefixUnbordered(h: string, p: string)
    requires ':' !in h && '.' !in h && !Occurs(p, "://")
    ensures Unbordered(WorkAroundPrefix(h, p))
  {
    var w := WorkAroundPrefix(h, p);
    forall k | 0 < k < |w| ensures w[..k] != w[|w| - k..] {
      var j := |w| - k + |h|; // where the "://" of the prefix would have to sit again
      if k <= |h| + 3 {
        assert w[k - 1] != '.' == w[|w| - 1];
        MismatchedBorder(w, k, k - 1);
      } else if j < |h| + 3 {
        assert w[|h|] == ':' != '/' == w[j];
        MismatchedBorder(w, k, |h|);
      } else {
        var at := j - |h| - 3;
        assert !OccursAt(p, "://", at);
        var d :| 0 <= d < 3 && p[at + d] != "://"[d];
        assert w[|h| + d] == "://"[d] != p[at + d] == w[j + d];
        MismatchedBorder(w, k, |h| + d);
      }
    }
  }

  /** An unbordered word cannot begin shortly before one of its occurrences. */
  lemma NoOverlap(x: string, w: string, y: string)
    requires 0 < |x| < |w| && Unbordered(w)
    ensures !StartsWith(x + w + y, w)
  {
    var s := x + w + y;
    var k := |w| - |x|;
    assert s[..|w|][|x|..] == w[..k];
    assert w[..k] != w[|w| - k..] == w[|x|..];
    assert s[..|w|] != w;
  }

  /** A rewrite of an unbordered pattern acts separately on what lies left and right of an occurrence. */
  lemma {:induction false} ReplaceAround(x: string, w: string, y: string, rep: string)
    requires w != "" && Unbordered(w)
    ensures Replace(x + w + y, w, rep) == Replace(x, w, rep) + rep + Replace(y, w, rep)
    decreases |x|
  {
    var s := x + w + y;
    if x == "" {
      assert s == w + y;
      assert s[|w|..] == y;
    } else if StartsWith(s, w) {
      if |x| < |w| {
        NoOverlap(x, w, y);
      }
      assert x[..|w|] == s[..|w|] == w;
      assert s[|w|..] == x[|w|..] + w + y;
      ReplaceAround(x[|w|..], w, y, rep);
    } else {
      assert x[..] == s[..|x|];
      assert StartsWith(x, w) ==> StartsWith(s, w);
      assert s[1..] == x[1..] + w + y;
      ReplaceAround(x[1..], w, y, rep);
    }
  }

  lemma {:induction false} ReplaceJoined(pieces: seq<string>, w: string, rep: string)
    requires pieces != [] && w != "" && Unbordered(w)
    ensures Replace(Join(pieces, w), w, rep) == Join(ReplaceEach(pieces, w, rep), rep)
  {
    if |pieces| > 1 {
      var tail := Join(pieces[1..], w);
      ReplaceAround(pieces[0], w, tail, rep);
      ReplaceJoined(pieces[1..], w, rep);
      assert ReplaceEach(pieces, w, rep)[1..] == ReplaceEach(pieces[1..], w, rep);
    }
  }

  lemma {:induction false} JoinLength(a: seq<string>, b: seq<string>, sep: string)
    requires |a| == |b| > 0
    requires forall i | 0 <= i < |a| :: |a[i]| <= |b[i]|
    ensures |Join(a, sep)| <= |Join(b, sep)|
    ensures (exists i :: 0 <= i < |a| && |a[i]| < |b[i]|) ==> |Join(a, sep)| < |Join(b, sep)|
  {
    if |a| > 1 {
      JoinLength(a[1..], b[1..], sep);
      if i :| 0 <= i < |a| && |a[i]| < |b[i]| {
        if i > 0 {
          assert |a[1..][i - 1]| < |b[1..][i - 1]|;
        }
      }
    }
  }

  /** What `Apply` leaves untouched: the stretches between the rewritten prefixes. */
  function Untouched(uri: string, protocol: string): seq<string> {
    Split(uri, OriginalPrefix(protocol))
  }

  /**
   The round trip, exactly. For a scheme such as "http" or "https" and a protocol
   without "://", reverting an applied work-around gives the URI back if and only
   if none of the untouched stretches contains the work-around prefix itself.
   */
  lemma RoundTrip(uri: string, h: string, p: string)
    requires ':' !in h && '.' !in h && !Occurs(p, "://")
    ensures Revert(Apply(uri, h, p), h, p) == uri
       <==> forall piece | piece in Untouched(uri, p) :: !Occurs(piece, WorkAroundPrefix(h, p))
  {
    var o, w := OriginalPrefix(p), WorkAroundPrefix(h, p);
    var pieces := Untouched(uri, p);
    var back := ReplaceEach(pieces, w, o);
    WorkAroundPrefixUnbordered(h, p);
    ReplaceIsJoinOfSplit(uri, o, w);
    ReplaceJoined(pieces, w, o);
    SplitJoin(uri, o);
    assert Revert(Apply(uri, h, p), h, p) == Join(back, o);
    forall i | 0 <= i < |pieces| ensures |back[i]| <= |pieces[i]| {
      ReplaceShrinks(pieces[i], w, o);
    }
    JoinLength(back, pieces, o);
    if forall piece | piece in pieces :: !Occurs(piece, w) {
      forall i | 0 <= i < |pieces| ensures back[i] == pieces[i] {
        ReplaceAbsent(pieces[i], w, o);
      }
      assert back == pieces;
    } else {
      var i :| 0 <= i < |pieces| && Occurs(pieces[i], w);
      ReplaceShrinks(pieces[i], w, o);
      assert |back[i]| < |pieces[i]|;
    }
  }

  lemma {:induction false} PiecesAreInside(s: string, pat: string, w: string, i: nat)
    requires pat != "" && i < |Split(s, pat)| && Occurs(Split(s, pat)[i], w)
    ensures Occurs(s, w)
    decreases |s|
  {
    if s == "" {
    } else if StartsWith(s, pat) {
      if i == 0 {
        var j: nat :| OccursAt("", w, j);
        assert OccursAt(s, w, 0);
      } else {
        PiecesAreInside(s[|pat|..], pat, w, i - 1);
        Shift(s, |pat|, w);
      }
    } else {
      var rest := Split(s[1..], pat);
      if i > 0 {
        PiecesAreInside(s[1..], pat, w, i);
        Shift(s, 1, w);
      } else {
        FirstPieceIsPrefix(s, pat);
        var piece := Split(s, pat)[0];
        var j: nat :| OccursAt(piece, w, j);
        assert s[j..j + |w|] == piece[j..j + |w|];
        assert OccursAt(s, w, j);
      }
    }
  }

  lemma Shift(s: string, n: nat, w: string)
    requires n <= |s| && Occurs(s[n..], w)
    ensures Occurs(s, w)
  {
    var j: nat :| OccursAt(s[n..], w, j);
    assert s[n + j..n + j + |w|] == s[n..][j..j + |w|];
    assert OccursAt(s, w, n + j);
  }

  lemma {:induction false} FirstPieceIsPrefix(s: string, pat: string)
    requires pat != ""
    ensures Split(s, pat)[0] <= s
    decreases |s|
  {
    if s != "" && !StartsWith(s, pat) {
      FirstPieceIsPrefix(s[1..], pat);
    }
  }

  /** What the rewrite is for, in so many words: the protocol moves from the scheme into the host. */
  lemma ProtocolBecomesHost(h: string, p: string, rest: string)
    requires !Occurs(rest, p + "://")
    ensures Apply(p + "://" + rest, h, p) == h + "://" + p + "." + rest
  {
    var uri := p + "://" + rest;
    assert uri[..|p| + 3] == p + "://" && uri[|p| + 3..] == rest;
    ReplaceAbsent(rest, p + "://", h + "://" + p + ".");
    assert Replace(uri, p + "://", h + "://" + p + ".") == (h + "://" + p + ".") + rest;
  }

  /** And back again. */
  lemma HostBecomesProtocol(h: string, p: string, rest: string)
    requires !Occurs(rest, h + "://" + p + ".")
    ensures Revert(h + "://" + p + "." + rest, h, p) == p + "://" + rest
  {
    var w := h + "://" + p + ".";
    assert (w + rest)[..|w|] == w && (w + rest)[|w|..] == rest;
    ReplaceAbsent(rest, w, p + "://");
    assert Replace(w + rest, w, p + "://") == (p + "://") + rest;
  }

  /** In particular a URI that does not mention the work-around prefix always comes back. */
  lemma RoundTripWithoutPrefix(uri: string, h: string, p: string)
    requires ':' !in h && '.' !in h && !Occurs(p, "://")
    requires !Occurs(uri, WorkAroundPrefix(h, p))
    ensures Revert(Apply(uri, h, p), h, p) == uri
  {
    RoundTrip(uri, h, p);
    var pieces := Untouched(uri, p);
    forall piece | piece in pieces ensures !Occurs(piece, WorkAroundPrefix(h, p)) {
      var i :| 0 <= i < |pieces| && pieces[i] == piece;
      if Occurs(piece, WorkAroundPrefix(h, p)) {
        PiecesAreInside(uri, OriginalPrefix(p), WorkAroundPrefix(h, p), i);
      }
    }
  }

  /** The condition matters on navigations to the protocol itself: this one comes back as "wry://wry://". */
  lemma RoundTripCanFail()
    ensures var uri := "wry://http://wry."; OriginalPrefix("wry") <= uri && Revert(Apply(uri, "http", "wry"), "http", "wry") != uri
  {
    var uri, o, w := "wry://http://wry.", OriginalPrefix("wry"), WorkAroundPrefix("http", "wry");
    assert o == "wry://" && w == "http://wry." && uri[..6] == o && uri[6..] == w;
    forall i: nat ensures !OccursAt(w, o, i) {
      if i + |o| <= |w| {
        assert w[i..i + |o|][0] == w[i] && w[i..i + |o|][3] == w[i + 3];
      }
    }
    ReplaceAbsent(w, o, w);
    assert Apply(uri, "http", "wry") == w + w;
    assert (w + w)[..|w|] == w && (w + w)[|w|..] == w;
    ReplaceShrinks(w, w, o);
  }

  /** The interception test accepts exactly the URIs that begin with the work-around prefix. */
  lemma IsWorkAroundIsPrefixTest(uri: string, h: string, p: string)
    ensures IsWorkAround(uri, h, p) <==> WorkAroundPrefix(h, p) <= uri
  {
  }

  /** A navigation to `{protocol}://…` is intercepted after the rewrite. */
  lemma AppliedUriIsIntercepted(uri: string, h: string, p: string)
    requires OriginalPrefix(p) <= uri
    ensures IsWorkAround(Apply(uri, h, p), h, p)
  {
  }
}
