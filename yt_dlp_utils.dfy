/** Recognising Instagram post and reel links (src/yt_dlp/utils.rs). The two anchored
    regular expressions of `get_post_id` are written out as a hand-coded matcher, and the
    matcher is proved equal to a declarative description of the URLs they accept. */
module YtDlpUtils {
  import opened Wrappers

  /** The character class `[a-zA-Z0-9_-]`. */
  predicate IsIdChar(c: char) {
    ('a' <= c <= 'z') || ('A' <= c <= 'Z') || ('0' <= c <= '9') || c == '_' || c == '-'
  }

  /** The longest prefix of `s` made of id characters: what the greedy `[a-zA-Z0-9_-]+` takes. */
  function IdRun(s: string): (run: string)
    ensures run <= s
    ensures forall i :: 0 <= i < |run| ==> IsIdChar(run[i])
    ensures |run| < |s| ==> !IsIdChar(s[|run|])
  {
    if s != [] && IsIdChar(s[0]) then [s[0]] + IdRun(s[1..]) else []
  }

  const Scheme: string := "https://"
  const WwwHost: string := "https://www.instagram.com/"
  const BareHost: string := "https://instagram.com/"

  /** `^https://(?:www\.)?instagram\.com/`: the host prefix the URL starts with, if any
      (the optional `www.` is tried first, as the regex engine does). */
  function MatchHost(url: string): (host: Option<string>)
    ensures host.Some? ==> host.value <= url
  {
    if WwwHost <= url then Some(WwwHost)
    else if BareHost <= url then Some(BareHost)
    else None
  }

  /** What follows the host prefix. */
  function AfterHost(url: string): Option<string> {
    match MatchHost(url)
    case None => None
    case Some(host) => Some(url[|host|..])
  }

  /** The id captured by a non-empty id run right after `path` (a prefix of `after`), if any. */
  function CaptureAfter(after: string, path: string): Option<string> {
    if path <= after && IdRun(after[|path|..]) != [] then Some(IdRun(after[|path|..])) else None
  }

  /** Capture group 1 of `^https://(?:www\.)?instagram\.com/p/([a-zA-Z0-9_-]+)/?`. */
  function PostCapture(url: string): Option<string> {
    match AfterHost(url)
    case None => None
    case Some(after) => CaptureAfter(after, "p/")
  }

  /** Capture group 1 of `^https://(?:www\.)?instagram\.com/reels?/([a-zA-Z0-9_-]+)/?`;
      the optional `s` is tried first, as the regex engine does. */
  function ReelCapture(url: string): Option<string> {
    match AfterHost(url)
    case None => None
    case Some(after) => ReelAfter(after)
  }

  /** The reel pattern's capture from what follows the host. */
  function ReelAfter(after: string): Option<string> {
    if "reels/" <= after then CaptureAfter(after, "reels/") else CaptureAfter(after, "reel/")
  }

  /** `get_post_id`: the post pattern is tried first and the reel pattern, when it matches,
      overwrites its result; an empty id means neither matched. */
  function GetPostId(url: string): (r: Result<string, string>)
    ensures r.Failure? ==> r.error == "Instagram post/reel ID was not found"
    ensures r.Success? ==> |r.value| > 0 && forall i :: 0 <= i < |r.value| ==> IsIdChar(r.value[i])
    ensures r.Success? ==> "https://" <= url
  {
    var postId := if PostCapture(url).Some? then PostCapture(url).value else "";
    var postId := if ReelCapture(url).Some? then ReelCapture(url).value else postId;
    if postId == "" then Failure("Instagram post/reel ID was not found") else Success(postId)
  }

  // A declarative description of the links `get_post_id` accepts.

  ghost predicate IsHost(host: string) {
    host == WwwHost || host == BareHost
  }

  ghost predicate IsId(id: string) {
    |id| > 0 && forall i :: 0 <= i < |id| ==> IsIdChar(id[i])
  }

  /** What may follow the id: anything that does not extend it. */
  ghost predicate EndsId(tail: string) {
    tail == [] || !IsIdChar(tail[0])
  }

  ghost predicate IsPath(path: string) {
    path == "p/" || path == "reel/" || path == "reels/"
  }

  /** `url` is a post or reel link whose id is `id`. */
  ghost predicate LinksTo(url: string, id: string) {
    exists host, path, tail ::
      IsHost(host) && IsPath(path) && IsId(id) && EndsId(tail) && url == host + path + id + tail
  }

  lemma {:induction false} IdRunOfId(id: string, tail: string)
    requires forall i :: 0 <= i < |id| ==> IsIdChar(id[i])
    requires EndsId(tail)
    ensures IdRun(id + tail) == id
  {
    if id != [] {
      assert (id + tail)[1..] == id[1..] + tail;
      IdRunOfId(id[1..], tail);
    } else {
      assert id + tail == tail;
    }
  }

  lemma AfterHostOf(host: string, rest: string)
    requires IsHost(host)
    ensures AfterHost(host + rest) == Some(rest)
  {
    var url := host + rest;
    if host == BareHost {
      assert !(WwwHost <= url) by { assert url[8] == 'i'; }
    }
    assert url[|host|..] == rest;
  }

  lemma CaptureAfterOf(path: string, id: string, tail: string)
    requires IsId(id) && EndsId(tail)
    ensures CaptureAfter(path + id + tail, path) == Some(id)
  {
    var after := path + id + tail;
    assert after[|path|..] == id + tail;
    IdRunOfId(id, tail);
  }

  /** After a post path, the post pattern captures the id and the reel pattern nothing. */
  lemma PostPathCaptures(id: string, tail: string)
    requires IsId(id) && EndsId(tail)
    ensures CaptureAfter("p/" + id + tail, "p/") == Some(id)
    ensures ReelAfter("p/" + id + tail) == None
  {
    var after := "p/" + id + tail;
    CaptureAfterOf("p/", id, tail);
    assert !("reels/" <= after) && !("reel/" <= after) by { assert after[0] == 'p'; }
  }

  /** After a reel path, the reel pattern captures the id and the post pattern nothing. */
  lemma ReelPathCaptures(path: string, id: string, tail: string)
    requires (path == "reel/" || path == "reels/") && IsId(id) && EndsId(tail)
    ensures CaptureAfter(path + id + tail, "p/") == None
    ensures ReelAfter(path + id + tail) == Some(id)
  {
    var after := path + id + tail;
    CaptureAfterOf(path, id, tail);
    assert !("p/" <= after) by { assert after[0] == 'r'; }
    if path == "reel/" {
      assert !("reels/" <= after) by { assert after[4] == '/'; }
    }
  }

  /** Completeness: every post or reel link yields its id, whatever follows the id. */
  lemma GetPostIdOfLink(host: string, path: string, id: string, tail: string)
    requires IsHost(host) && IsPath(path) && IsId(id) && EndsId(tail)
    ensures GetPostId(host + path + id + tail) == Success(id)
  {
    var url := host + path + id + tail;
    var after := path + id + tail;
    assert url == host + after;
    AfterHostOf(host, after);
    if path == "p/" {
      PostPathCaptures(id, tail);
    } else {
      ReelPathCaptures(path, id, tail);
    }
    assert PostCapture(url) == CaptureAfter(after, "p/");
    assert ReelCapture(url) == ReelAfter(after);
  }

  lemma LinksToOf(host: string, path: string, id: string, tail: string)
    requires IsHost(host) && IsPath(path) && IsId(id) && EndsId(tail)
    ensures LinksTo(host + path + id + tail, id)
  {
  }

  lemma PrefixSplit(prefix: string, s: string)
    requires prefix <= s
    ensures s == prefix + s[|prefix|..]
  {
  }

  lemma CaptureIsLink(url: string, path: string)
    requires AfterHost(url).Some? && IsPath(path)
    requires CaptureAfter(AfterHost(url).value, path).Some?
    ensures LinksTo(url, CaptureAfter(AfterHost(url).value, path).value)
  {
    var host := MatchHost(url).value;
    var after := url[|host|..];
    PrefixSplit(host, url);
    assert AfterHost(url) == Some(after);
    var rest := after[|path|..];
    PrefixSplit(path, after);
    var id := IdRun(rest);
    assert IsId(id);
    PrefixSplit(id, rest);
    var tail := rest[|id|..];
    assert EndsId(tail) by {
      if tail != [] { assert tail[0] == rest[|id|]; }
    }
    assert IsHost(host);
    assert url == host + (path + (id + tail));
    ConcatAssoc(host, path, id, tail);
    LinksToOf(host, path, id, tail);
  }

  lemma ConcatAssoc(a: string, b: string, c: string, d: string)
    ensures a + (b + (c + d)) == a + b + c + d
  {
  }

  /** Soundness: an id is only ever returned for a post or reel link that carries it. */
  lemma GetPostIdIsLink(url: string)
    requires GetPostId(url).Success?
    ensures LinksTo(url, GetPostId(url).value)
  {
    var after := AfterHost(url).value;
    if ReelCapture(url).Some? {
      if "reels/" <= after {
        CaptureIsLink(url, "reels/");
      } else {
        CaptureIsLink(url, "reel/");
      }
    } else {
      CaptureIsLink(url, "p/");
    }
  }

  /** `sub` occurs in `s` starting at index `i`. */
  ghost predicate OccursAt(s: string, sub: string, i: int) {
    0 <= i && i + |sub| <= |s| && s[i..i + |sub|] == sub
  }

  /** `s` contains `sub` as a contiguous substring (`str::contains`). */
  function Contains(s: string, sub: string): (r: bool)
    ensures r <==> exists i :: OccursAt(s, sub, i)
    decreases |s|
  {
    if sub <= s then
      assert OccursAt(s, sub, 0);
      true
    else if |s| <= |sub| then
      false
    else
      var r := Contains(s[1..], sub);
      assert forall i :: OccursAt(s[1..], sub, i) <==> OccursAt(s, sub, i + 1) by {
        forall i ensures OccursAt(s[1..], sub, i) <==> OccursAt(s, sub, i + 1) {
          if 0 <= i && i + 1 + |sub| <= |s| {
            assert s[1..][i..i + |sub|] == s[i + 1..i + 1 + |sub|];
          }
        }
      }
      assert (exists i :: OccursAt(s, sub, i)) ==> exists i :: OccursAt(s[1..], sub, i) by {
        if exists i :: OccursAt(s, sub, i) {
          var i :| OccursAt(s, sub, i);
          assert i != 0;
          assert OccursAt(s[1..], sub, i - 1);
        }
      }
      r
  }

  /** `is_instagram_url`: `parse` stands for `Url::parse` followed by `domain()` (Failure
      carries the parser's message, Success(None) a URL without a domain). */
  function IsInstagramUrl(url: string, parse: string -> Result<Option<string>, string>): (r: Result<bool, string>)
    ensures parse(url).Failure? ==> r == Failure(parse(url).error)
    ensures parse(url) == Success(None) ==> r == Failure("Failed to get domain")
    ensures parse(url).Success? && parse(url).value.Some? ==>
              r.Success? && (r.value <==> exists i :: OccursAt(parse(url).value.value, "instagram.com", i))
  {
    match parse(url)
    case Failure(e) => Failure(e)
    case Success(None) => Failure("Failed to get domain")
    case Success(Some(domain)) => Success(Contains(domain, "instagram.com"))
  }
}
