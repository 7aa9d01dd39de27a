/** Recovering an Instagram handle from a profile link stored on a user, as
    the tagged-media poller does when no user carries the handle directly. */
module InstagramLinks {
  import opened Common

  /** The character class `[a-zA-Z0-9._-]` of a handle. */
  predicate IsHandleChar(c: char) {
    ('a' <= c <= 'z') || ('A' <= c <= 'Z') || ('0' <= c <= '9') || c == '.' || c == '_' || c == '-'
  }

  predicate IsHandle(h: string) {
    |h| > 0 && forall i :: 0 <= i < |h| ==> IsHandleChar(h[i])
  }

  /** The four spellings of the profile URL prefix that
      `^https?://(?:www\.)?instagram\.com/` accepts, in the order tried. */
  const HostPrefixes: seq<string> := [
    "https://www.instagram.com/", "https://instagram.com/",
    "http://www.instagram.com/", "http://instagram.com/"
  ]

  /** The longest prefix of `s` made of handle characters (the greedy `+`). */
  function HandleRun(s: string): (r: string)
    ensures |r| <= |s| && r == s[..|r|]
    ensures forall i :: 0 <= i < |r| ==> IsHandleChar(r[i])
    ensures |r| == |s| || !IsHandleChar(s[|r|])
  {
    if s == [] || !IsHandleChar(s[0]) then [] else [s[0]] + HandleRun(s[1..])
  }

  /** `link.replace(/\/$/, '')`: at most one trailing slash is removed. */
  function StripTrailingSlash(link: string): (r: string)
    ensures |link| > 0 && link[|link| - 1] == '/' ==> r == link[..|link| - 1]
    ensures (|link| == 0 || link[|link| - 1] != '/') ==> r == link
  {
    if |link| > 0 && link[|link| - 1] == '/' then link[..|link| - 1] else link
  }

  /** The first of `ps` that `s` starts with. */
  function FirstPrefix(ps: seq<string>, s: string): (r: Option<string>)
    ensures r.Some? ==> r.value in ps && r.value <= s
    ensures r.None? ==> forall p :: p in ps ==> !(p <= s)
  {
    if ps == [] then None
    else if ps[0] <= s then Some(ps[0])
    else
      assert ps == [ps[0]] + ps[1..];
      FirstPrefix(ps[1..], s)
  }

  /** The scheme and host the link starts with, if any. */
  function HostOf(s: string): (r: Option<string>)
    ensures r.Some? ==> r.value in HostPrefixes && r.value <= s
    ensures r.None? ==> forall p :: p in HostPrefixes ==> !(p <= s)
  {
    FirstPrefix(HostPrefixes, s)
  }

  /** The handle a profile link names: the run of handle characters right
      after the scheme and host of the link without its trailing slash; None
      when the link is empty, names another site, or the run is empty. */
  function ExtractInstagramUsernameFromLink(link: string): (r: Option<string>)
    ensures link == "" ==> r.None?
    ensures r.Some? ==> IsHandle(r.value)
  {
    if link == "" then None
    else
      var trimmed := StripTrailingSlash(link);
      match HostOf(trimmed)
      case None => None
      case Some(p) =>
        var h := HandleRun(trimmed[|p|..]);
        if h == "" then None else Some(h)
  }

  /** A link naming another site yields nothing, and an extracted handle
      follows the scheme and host right away. */
  lemma ExtractFollowsHost(link: string)
    ensures HostOf(StripTrailingSlash(link)).None? ==> ExtractInstagramUsernameFromLink(link).None?
    ensures ExtractInstagramUsernameFromLink(link).Some? ==>
              HostOf(StripTrailingSlash(link)).Some? &&
              HostOf(StripTrailingSlash(link)).value + ExtractInstagramUsernameFromLink(link).value
                <= StripTrailingSlash(link)
  {
    var trimmed := StripTrailingSlash(link);
    var host := HostOf(trimmed);
    if link != "" && host.Some? {
      var p := host.value;
      var rest := trimmed[|p|..];
      var h := HandleRun(rest);
      assert trimmed == p + h + rest[|h|..];
    }
  }

  /** A profile link built from a handle gives that handle back, whatever
      non-handle text (a query, a fragment, a trailing slash) follows it. */
  lemma ExtractRoundTrip(p: string, h: string, tail: string)
    requires p in HostPrefixes && IsHandle(h)
    requires tail == [] || !IsHandleChar(tail[0])
    ensures ExtractInstagramUsernameFromLink(p + h + tail) == Some(h)
  {
    var head := p + h;
    assert head[|head| - 1] == h[|h| - 1];
    var tail' := StripOnTail(head, tail);
    var rest := h + tail';
    assert head + tail' == p + rest;
    HostOfPrefix(p, rest);
    HandleRunOfHandle(h, tail');
    ExtractAfterHost(p + h + tail, p, rest);
  }

  /** Once the host is known, the handle is the run after it. */
  lemma ExtractAfterHost(link: string, p: string, rest: string)
    requires link != "" && StripTrailingSlash(link) == p + rest && HostOf(p + rest) == Some(p)
    ensures ExtractInstagramUsernameFromLink(link) == if HandleRun(rest) == [] then None else Some(HandleRun(rest))
  {
    assert (p + rest)[|p|..] == rest;
  }

  /** Stripping the trailing slash of `head + tail`, with `head` ending in a
      handle character, only ever shortens `tail`. */
  lemma StripOnTail(head: string, tail: string) returns (tail': string)
    requires |head| > 0 && head[|head| - 1] != '/'
    requires tail == [] || !IsHandleChar(tail[0])
    ensures StripTrailingSlash(head + tail) == head + tail'
    ensures tail' == [] || !IsHandleChar(tail'[0])
  {
    var link := head + tail;
    if |tail| > 0 && tail[|tail| - 1] == '/' {
      tail' := tail[..|tail| - 1];
      assert link[|link| - 1] == tail[|tail| - 1];
      assert link[..|link| - 1] == head + tail';
    } else {
      tail' := tail;
      if |tail| == 0 {
        assert link[|link| - 1] == head[|head| - 1];
      } else {
        assert link[|link| - 1] == tail[|tail| - 1];
      }
    }
  }

  /** The four spellings are mutually exclusive: a link starting with one
      of them is matched by that one. */
  lemma HostOfPrefix(p: string, rest: string)
    requires p in HostPrefixes
    ensures HostOf(p + rest) == Some(p)
  {
    var s := p + rest;
    var ps := HostPrefixes;
    assert s[..|p|] == p;
    if p != ps[0] {
      assert !(ps[0] <= s) by {
        if p == ps[1] { assert s[8] == 'i'; } else { assert s[4] == ':'; }
      }
      assert FirstPrefix(ps, s) == FirstPrefix(ps[1..], s);
      if p != ps[1] {
        assert !(ps[1] <= s) by { assert s[4] == ':'; }
        assert FirstPrefix(ps[1..], s) == FirstPrefix(ps[2..], s);
        if p != ps[2] {
          assert !(ps[2] <= s) by { assert s[7] == 'i'; }
          assert FirstPrefix(ps[2..], s) == FirstPrefix(ps[3..], s);
        }
      }
    }
  }

  lemma {:induction false} HandleRunOfHandle(h: string, tail: string)
    requires forall i :: 0 <= i < |h| ==> IsHandleChar(h[i])
    requires tail == [] || !IsHandleChar(tail[0])
    ensures HandleRun(h + tail) == h
  {
    if h != [] {
      assert (h + tail)[1..] == h[1..] + tail;
      HandleRunOfHandle(h[1..], tail);
    }
  }
}
