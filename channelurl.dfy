/**
 * extractChannelId (src/services/youtubeApiService.js): the five URL regular expressions,
 * tried in order, written as scanners over the characters of the URL.
 */
module ChannelUrl {
  import opened Wrappers

  const InvalidUrlMessage: string := "Invalid YouTube channel URL format"

  /** The two character classes: [a-zA-Z0-9_.-] for handles and trailing segments, [a-zA-Z0-9_-] for ids and names. */
  datatype CharClass = HandleChars | IdChars

  predicate IsAlnum(c: char) { 'a' <= c <= 'z' || 'A' <= c <= 'Z' || '0' <= c <= '9' }

  predicate InClass(cls: CharClass, c: char)
  {
    match cls
    case HandleChars => IsAlnum(c) || c == '_' || c == '.' || c == '-'
    case IdChars => IsAlnum(c) || c == '_' || c == '-'
  }

  predicate AllIn(cls: CharClass, s: string) { forall i :: 0 <= i < |s| ==> InClass(cls, s[i]) }

  /**
   * A pattern with one capture group. After(marker, cls) is /marker([cls]+)/;
   * TrailingSegment is /\/([a-zA-Z0-9_.-]+)$/.
   */
  datatype Pattern = After(marker: string, cls: CharClass) | TrailingSegment

  /** The patterns in the order extractChannelId tries them. */
  const Patterns: seq<Pattern> := [
    After("@", HandleChars),
    After("/channel/", IdChars),
    After("/c/", IdChars),
    After("/user/", IdChars),
    TrailingSegment]

  datatype IdKind = Handle | Id

  datatype ChannelRef = ChannelRef(id: string, kind: IdKind)

  /** The greedy run of `cls` characters at the start of s. */
  function Run(s: string, cls: CharClass): (r: string)
    ensures r <= s && AllIn(cls, r)
    ensures |r| < |s| ==> !InClass(cls, s[|r|])
  {
    if s == [] || !InClass(cls, s[0]) then [] else [s[0]] + Run(s[1..], cls)
  }

  /** The capture of a match of `p` that starts exactly at index i, if there is one. */
  function CaptureAt(p: Pattern, s: string, i: nat): Option<string>
  {
    match p
    case After(marker, cls) =>
      if i + |marker| < |s| && s[i..i + |marker|] == marker && InClass(cls, s[i + |marker|])
      then Some(Run(s[i + |marker|..], cls)) else None
    case TrailingSegment =>
      if i + 1 < |s| && s[i] == '/' && AllIn(HandleChars, s[i + 1..]) then Some(s[i + 1..]) else None
  }

  /** String.prototype.match: the capture of the leftmost match starting at or after i. */
  function Search(p: Pattern, s: string, i: nat): Option<string>
    decreases |s| - i
  {
    if i >= |s| then None
    else if CaptureAt(p, s, i).Some? then CaptureAt(p, s, i)
    else Search(p, s, i + 1)
  }

  /** The capture of the first pattern in `ps` that matches s. */
  function FirstMatch(ps: seq<Pattern>, s: string): Option<string>
  {
    if ps == [] then None
    else if Search(ps[0], s, 0).Some? then Search(ps[0], s, 0)
    else FirstMatch(ps[1..], s)
  }

  /** What extractChannelId returns or throws. */
  function Extract(url: string): Result<ChannelRef, string>
  {
    match FirstMatch(Patterns, url)
    case Some(id) => Ok(ChannelRef(id, if '@' in url then Handle else Id))
    case None => Err(InvalidUrlMessage)
  }

  /** extractChannelId: try each pattern in order and return the first capture. */
  method ExtractChannelId(url: string) returns (r: Result<ChannelRef, string>)
    ensures r == Extract(url)
  {
    var i := 0;
    while i < |Patterns|
      invariant 0 <= i <= |Patterns|
      invariant FirstMatch(Patterns, url) == FirstMatch(Patterns[i..], url)
    {
      var found := Search(Patterns[i], url, 0);
      if found.Some? {
        return Ok(ChannelRef(found.value, if '@' in url then Handle else Id));
      }
      assert Patterns[i..][1..] == Patterns[i + 1..];
      i := i + 1;
    }
    return Err(InvalidUrlMessage);
  }

  /** The match found is the leftmost one: it starts at some j >= i and no earlier position matches. */
  lemma {:induction false} SearchIsLeftmost(p: Pattern, s: string, i: nat) returns (j: nat)
    requires Search(p, s, i).Some?
    ensures i <= j < |s| && CaptureAt(p, s, j) == Search(p, s, i)
    ensures forall k :: i <= k < j ==> CaptureAt(p, s, k).None?
    decreases |s| - i
  {
    if CaptureAt(p, s, i).Some? {
      j := i;
    } else {
      j := SearchIsLeftmost(p, s, i + 1);
    }
  }

  /** A search that finds nothing means no position matches. */
  lemma {:induction false} SearchNoneMeansNoMatch(p: Pattern, s: string, i: nat, k: nat)
    requires Search(p, s, i).None? && i <= k
    ensures CaptureAt(p, s, k).None?
    decreases |s| - i
  {
    if i < |s| && i < k {
      SearchNoneMeansNoMatch(p, s, i + 1, k);
    }
  }

  lemma IdCharsAreHandleChars(s: string)
    requires AllIn(IdChars, s)
    ensures AllIn(HandleChars, s)
  {
  }

  /** Every capture is non-empty and drawn from [A-Za-z0-9_.-]. */
  lemma CaptureIsWellFormed(p: Pattern, s: string, i: nat)
    requires CaptureAt(p, s, i).Some?
    ensures |CaptureAt(p, s, i).value| >= 1 && AllIn(HandleChars, CaptureAt(p, s, i).value)
  {
    match p
    case After(marker, cls) =>
      var rest := s[i + |marker|..];
      assert rest[0] == s[i + |marker|];
      if cls == IdChars {
        IdCharsAreHandleChars(Run(rest, cls));
      }
    case TrailingSegment =>
  }

  lemma {:induction false} FirstMatchIsSomeCapture(ps: seq<Pattern>, s: string) returns (p: Pattern, j: nat)
    requires FirstMatch(ps, s).Some?
    ensures p in ps && CaptureAt(p, s, j) == FirstMatch(ps, s)
  {
    if Search(ps[0], s, 0).Some? {
      p := ps[0];
      j := SearchIsLeftmost(ps[0], s, 0);
    } else {
      p, j := FirstMatchIsSomeCapture(ps[1..], s);
    }
  }

  /** An extracted identifier is non-empty and uses only [A-Za-z0-9_.-]; its kind is Handle exactly when the URL holds an '@'. */
  lemma ExtractedIdIsWellFormed(url: string)
    requires Extract(url).Ok?
    ensures |Extract(url).value.id| >= 1 && AllIn(HandleChars, Extract(url).value.id)
    ensures Extract(url).value.kind == Handle <==> '@' in url
  {
    var p, j := FirstMatchIsSomeCapture(Patterns, url);
    CaptureIsWellFormed(p, url, j);
  }

  /** A position where the URL differs from the marker (or is too short for it) does not start a match. */
  lemma MarkerMismatch(marker: string, cls: CharClass, s: string, k: nat, d: nat)
    requires d < |marker|
    requires k + d < |s| ==> s[k + d] != marker[d]
    ensures CaptureAt(After(marker, cls), s, k).None?
  {
    if k + |marker| < |s| {
      assert s[k..k + |marker|][d] == s[k + d];
    }
  }

  /** The search passes over positions that do not match. */
  lemma {:induction false} SearchSkips(p: Pattern, s: string, i: nat, j: nat)
    requires i <= j
    requires forall k :: i <= k < j ==> CaptureAt(p, s, k).None?
    ensures Search(p, s, i) == Search(p, s, j)
    decreases j - i
  {
    if i < j {
      SearchSkips(p, s, i + 1, j);
    }
  }

  /** A marker holding a character that is absent from the URL never matches. */
  lemma MarkerAbsent(marker: string, d: nat, cls: CharClass, s: string)
    requires d < |marker| && marker[d] !in s
    ensures Search(After(marker, cls), s, 0).None?
  {
    forall k | 0 <= k < |s| ensures CaptureAt(After(marker, cls), s, k).None? {
      MarkerMismatch(marker, cls, s, k, d);
    }
    SearchSkips(After(marker, cls), s, 0, |s|);
  }

  /** When no pattern finds anything, there is no first match. */
  lemma {:induction false} NoPatternMatches(ps: seq<Pattern>, s: string)
    requires forall q :: q in ps ==> Search(q, s, 0).None?
    ensures FirstMatch(ps, s).None?
  {
    if ps != [] {
      NoPatternMatches(ps[1..], s);
    }
  }

  /** The greedy run over a class string stops exactly where the class ends. */
  lemma {:induction false} RunStopsAtBoundary(t: string, rest: string, cls: CharClass)
    requires AllIn(cls, t)
    requires rest == [] || !InClass(cls, rest[0])
    ensures Run(t + rest, cls) == t
  {
    if t != [] {
      assert (t + rest)[1..] == t[1..] + rest;
      RunStopsAtBoundary(t[1..], rest, cls);
    } else {
      assert t + rest == rest;
    }
  }

  /** A URL with neither '/' nor '@' is rejected with 'Invalid YouTube channel URL format'. */
  lemma NoSlashNoAtIsInvalid(url: string)
    requires '/' !in url && '@' !in url
    ensures Extract(url) == Err(InvalidUrlMessage)
  {
    MarkerAbsent("@", 0, HandleChars, url);
    MarkerAbsent("/channel/", 0, IdChars, url);
    MarkerAbsent("/c/", 0, IdChars, url);
    MarkerAbsent("/user/", 0, IdChars, url);
    forall k | 0 <= k < |url| ensures CaptureAt(TrailingSegment, url, k).None? {
      assert url[k] != '/';
    }
    SearchSkips(TrailingSegment, url, 0, |url|);
    NoPatternMatches(Patterns, url);
  }

  /** When no earlier position starts a match, the search captures the class run right after the marker at n. */
  lemma MatchAfterPrefix(marker: string, cls: CharClass, s: string, n: nat, body: string, rest: string)
    requires n + |marker| <= |s| && s[n..n + |marker|] == marker && s[n + |marker|..] == body + rest
    requires |body| >= 1 && AllIn(cls, body)
    requires rest == [] || !InClass(cls, rest[0])
    requires forall k :: 0 <= k < n ==> CaptureAt(After(marker, cls), s, k).None?
    ensures Search(After(marker, cls), s, 0) == Some(body)
  {
    SearchSkips(After(marker, cls), s, 0, n);
    CaptureAfterMarker(marker, cls, s, n, body, rest);
  }

  lemma CaptureAfterMarker(marker: string, cls: CharClass, s: string, n: nat, body: string, rest: string)
    requires n + |marker| <= |s| && s[n..n + |marker|] == marker && s[n + |marker|..] == body + rest
    requires |body| >= 1 && AllIn(cls, body)
    requires rest == [] || !InClass(cls, rest[0])
    ensures CaptureAt(After(marker, cls), s, n) == Some(body)
  {
    var t := s[n + |marker|..];
    assert t[0] == body[0];
    assert s[n + |marker|] == t[0];
    RunStopsAtBoundary(body, rest, cls);
  }

  lemma SplitAround(prefix: string, marker: string, body: string, rest: string)
    ensures var s := prefix + marker + body + rest;
      s[|prefix|..|prefix| + |marker|] == marker && s[|prefix| + |marker|..] == body + rest
  {
    var s := prefix + marker + body + rest;
    assert s == prefix + (marker + (body + rest));
  }

  /** A handle URL: the run of handle characters after the first '@' is the id, of kind Handle. */
  lemma HandleUrl(prefix: string, handle: string, rest: string)
    requires '@' !in prefix
    requires |handle| >= 1 && AllIn(HandleChars, handle)
    requires rest == [] || !InClass(HandleChars, rest[0])
    ensures Extract(prefix + "@" + handle + rest) == Ok(ChannelRef(handle, Handle))
  {
    var s := prefix + "@" + handle + rest;
    forall k | 0 <= k < |prefix| ensures CaptureAt(After("@", HandleChars), s, k).None? {
      assert s[k] == prefix[k];
      MarkerMismatch("@", HandleChars, s, k, 0);
    }
    SplitAround(prefix, "@", handle, rest);
    MatchAfterPrefix("@", HandleChars, s, |prefix|, handle, rest);
    assert '@' in s by { assert s[|prefix|] == '@'; }
  }

  lemma NoAtInChannelUrl(prefix: string, id: string, rest: string)
    requires '@' !in prefix && '@' !in rest && AllIn(IdChars, id)
    ensures '@' !in prefix + "/channel/" + id + rest
  {
    var s := prefix + "/channel/" + id + rest;
    forall k | 0 <= k < |s| ensures s[k] != '@' {
      if k >= |prefix| + 9 + |id| {
        assert s[k] == rest[k - |prefix| - 9 - |id|];
      } else if k >= |prefix| + 9 {
        assert InClass(IdChars, id[k - |prefix| - 9]);
      }
    }
  }

  /**
   * A /channel/ URL without '@': the run of id characters after the first "/channel/" is the id,
   * of kind Id, provided no '/' earlier in the URL is followed by 'c'.
   */
  lemma ChannelIdUrl(prefix: string, id: string, rest: string)
    requires '@' !in prefix && '@' !in rest
    requires forall k :: 0 <= k < |prefix| && prefix[k] == '/' ==> k + 1 < |prefix| && prefix[k + 1] != 'c'
    requires |id| >= 1 && AllIn(IdChars, id)
    requires rest == [] || !InClass(IdChars, rest[0])
    ensures Extract(prefix + "/channel/" + id + rest) == Ok(ChannelRef(id, Id))
  {
    var s := prefix + "/channel/" + id + rest;
    NoAtInChannelUrl(prefix, id, rest);
    MarkerAbsent("@", 0, HandleChars, s);
    forall k | 0 <= k < |prefix| ensures CaptureAt(After("/channel/", IdChars), s, k).None? {
      assert s[k] == prefix[k];
      if prefix[k] == '/' {
        assert s[k + 1] == prefix[k + 1];
        MarkerMismatch("/channel/", IdChars, s, k, 1);
      } else {
        MarkerMismatch("/channel/", IdChars, s, k, 0);
      }
    }
    SplitAround(prefix, "/channel/", id, rest);
    MatchAfterPrefix("/channel/", IdChars, s, |prefix|, id, rest);
    assert FirstMatch(Patterns[1..], s) == Some(id);
  }

  lemma HandleUrlExample()
    ensures Extract("https://youtube.com/@mkbhd") == Ok(ChannelRef("mkbhd", Handle))
  {
    HandleUrl("https://youtube.com/", "mkbhd", "");
    assert "https://youtube.com/" + "@" + "mkbhd" + "" == "https://youtube.com/@mkbhd";
  }

  lemma ChannelUrlExample()
    ensures Extract("https://youtube.com/channel/UCabc123") == Ok(ChannelRef("UCabc123", Id))
  {
    var prefix := "https://youtube.com";
    forall k | 0 <= k < |prefix| && prefix[k] == '/' ensures k + 1 < |prefix| && prefix[k + 1] != 'c' {
    }
    ChannelIdUrl(prefix, "UCabc123", "");
    assert prefix + "/channel/" + "UCabc123" + "" == "https://youtube.com/channel/UCabc123";
  }

  /** In "x/@/abc" the '@' is followed by '/', so the handle pattern finds nothing. */
  lemma AtExampleNoHandle()
    ensures Search(After("@", HandleChars), "x/@/abc", 0).None?
  {
    var s := "x/@/abc";
    forall k | 0 <= k < |s| ensures CaptureAt(After("@", HandleChars), s, k).None? {
      if k == 2 {
        assert !InClass(HandleChars, s[3]);
      } else {
        MarkerMismatch("@", HandleChars, s, k, 0);
      }
    }
    SearchSkips(After("@", HandleChars), s, 0, |s|);
  }

  /** "x/@/abc" holds no "/c/". */
  lemma AtExampleNoCustom()
    ensures Search(After("/c/", IdChars), "x/@/abc", 0).None?
  {
    var s := "x/@/abc";
    forall k | 0 <= k < |s| ensures CaptureAt(After("/c/", IdChars), s, k).None? {
      if s[k] == '/' {
        MarkerMismatch("/c/", IdChars, s, k, 1);
      } else {
        MarkerMismatch("/c/", IdChars, s, k, 0);
      }
    }
    SearchSkips(After("/c/", IdChars), s, 0, |s|);
  }

  /** The trailing-segment pattern first matches at the last '/', capturing "abc". */
  lemma AtExampleTrailing()
    ensures Search(TrailingSegment, "x/@/abc", 0) == Some("abc")
  {
    var s := "x/@/abc";
    assert CaptureAt(TrailingSegment, s, 0).None?;
    assert CaptureAt(TrailingSegment, s, 1).None? by { assert s[2] == '@'; }
    assert CaptureAt(TrailingSegment, s, 2).None?;
    SearchSkips(TrailingSegment, s, 0, 3);
    assert s[4..] == "abc";
    assert CaptureAt(TrailingSegment, s, 3) == Some("abc");
  }

  /** An '@' anywhere makes the kind Handle even when the id comes from the trailing-segment pattern. */
  lemma AtElsewhereStillHandle()
    ensures Extract("x/@/abc") == Ok(ChannelRef("abc", Handle))
  {
    var s := "x/@/abc";
    AtExampleNoHandle();
    MarkerAbsent("/channel/", 2, IdChars, s);
    AtExampleNoCustom();
    MarkerAbsent("/user/", 1, IdChars, s);
    AtExampleTrailing();
    assert Patterns[1..][1..][1..][1..] == [TrailingSegment];
    assert s[2] == '@';
  }
}
