/** The CDN URL helper: every image reference is sent to `https://<domain>/<path>`. */
module CloudFront {
  import opened Wrappers
  import opened Text
  import Types

  /** The domain used when the environment does not name one. */
  const DefaultDomain: string := "d2cjbd1iqkwr9j.cloudfront.net"

  /** `process.env.NEXT_PUBLIC_CLOUDFRONT_DOMAIN || DefaultDomain` */
  function ResolveDomain(env: Option<string>): (d: string)
    ensures d != ""
    ensures env.Some? && env.value != "" ==> d == env.value
    ensures !(env.Some? && env.value != "") ==> d == DefaultDomain
  {
    if env.Some? && env.value != "" then env.value else DefaultDomain
  }

  /** The canonical CDN form of an object path. */
  function CdnUrl(domain: string, path: string): string {
    "https://" + domain + "/" + path
  }

  /** Drops one leading `/`, if there is one. */
  function DropLeadingSlash(p: string): (r: string)
    ensures StartsWith(p, "/") ==> "/" + r == p
    ensures !StartsWith(p, "/") ==> r == p
  {
    if StartsWith(p, "/") then p[1..] else p
  }

  /** Drops `prefix` from the front of `p` when `p` starts with it. */
  function DropPrefix(p: string, prefix: string): (r: string)
    ensures StartsWith(p, prefix) ==> prefix + r == p
    ensures !StartsWith(p, prefix) ==> r == p
  {
    if StartsWith(p, prefix) then p[|prefix|..] else p
  }

  /** The path of a parsed URL: no leading slash, then no `api/v1/images/view/`, then no `images/view/`. */
  function ImagePathOfPathname(pathname: string): string {
    DropPrefix(DropPrefix(DropLeadingSlash(pathname), "api/v1/images/view/"), "images/view/")
  }

  /** Characters that `.` in a regular expression does not match. */
  predicate IsLineTerminator(c: char) {
    c == '\n' || c == '\r' || c == '\U{2028}' || c == '\U{2029}'
  }

  /** Length of the longest prefix of `s` free of line terminators (what a greedy `.+` consumes). */
  function LineRun(s: string): (n: nat)
    ensures n <= |s|
    ensures forall i :: 0 <= i < n ==> !IsLineTerminator(s[i])
    ensures n < |s| ==> IsLineTerminator(s[n])
  {
    if s == [] || IsLineTerminator(s[0]) then 0 else 1 + LineRun(s[1..])
  }

  /** A match of `/\/(memes|user-uploads)\/.+/` that starts at the very front of `s`. */
  function MediaMatchHere(s: string): (m: Option<string>)
    ensures m.Some? ==> StartsWith(s, m.value)
    ensures m.Some? ==> (StartsWith(m.value, "/memes/") && |m.value| > 7)
                        || (StartsWith(m.value, "/user-uploads/") && |m.value| > 14)
    ensures m.Some? <==> (StartsWith(s, "/memes/") && LineRun(s[7..]) > 0)
                         || (StartsWith(s, "/user-uploads/") && LineRun(s[14..]) > 0)
    ensures StartsWith(s, "/memes/") && LineRun(s[7..]) > 0 ==> m == Some(s[..7 + LineRun(s[7..])])
    ensures (!(StartsWith(s, "/memes/") && LineRun(s[7..]) > 0) && StartsWith(s, "/user-uploads/")
             && LineRun(s[14..]) > 0) ==> m == Some(s[..14 + LineRun(s[14..])])
  {
    if StartsWith(s, "/memes/") && LineRun(s[7..]) > 0 then Some(s[..7 + LineRun(s[7..])])
    else if StartsWith(s, "/user-uploads/") && LineRun(s[14..]) > 0 then Some(s[..14 + LineRun(s[14..])])
    else None
  }

  /** `s.match(/\/(memes|user-uploads)\/.+/)?.[0]`: the leftmost match. */
  function MediaMatch(s: string): (m: Option<string>)
    ensures m.Some? ==> Contains(s, m.value)
    ensures m.Some? ==> (StartsWith(m.value, "/memes/") && |m.value| > 7)
                        || (StartsWith(m.value, "/user-uploads/") && |m.value| > 14)
    ensures m.Some? ==> exists i :: 0 <= i < |s| && MediaMatchHere(s[i..]) == m
                          && forall j :: 0 <= j < i ==> MediaMatchHere(s[j..]).None?
  {
    if s == [] then None
    else if MediaMatchHere(s).Some? then
      assert s[0..] == s;
      MediaMatchHere(s)
    else
      var rest := MediaMatch(s[1..]);
      LeftmostShift(s, rest);
      rest
  }

  /** A leftmost match in `s[1..]` is a leftmost match in `s` when none starts at the front of `s`. */
  lemma LeftmostShift(s: string, m: Option<string>)
    requires s != [] && MediaMatchHere(s).None?
    requires m.Some? ==> exists i :: 0 <= i < |s| - 1 && MediaMatchHere(s[1..][i..]) == m
                           && forall j :: 0 <= j < i ==> MediaMatchHere(s[1..][j..]).None?
    ensures m.Some? ==> exists i :: 0 <= i < |s| && MediaMatchHere(s[i..]) == m
                          && forall j :: 0 <= j < i ==> MediaMatchHere(s[j..]).None?
  {
    if m.Some? {
      var i :| 0 <= i < |s| - 1 && MediaMatchHere(s[1..][i..]) == m
               && forall j :: 0 <= j < i ==> MediaMatchHere(s[1..][j..]).None?;
      assert s[1..][i..] == s[i + 1..];
      forall j | 0 <= j < i + 1 ensures MediaMatchHere(s[j..]).None? {
        if j == 0 {
          assert s[0..] == s;
        } else {
          assert s[1..][j - 1..] == s[j..];
        }
      }
    }
  }

  /** There is no match exactly when no suffix of `s` starts with one. */
  lemma {:induction false} MediaMatchNone(s: string)
    ensures MediaMatch(s).None? <==> forall i :: 0 <= i <= |s| ==> MediaMatchHere(s[i..]).None?
  {
    if s != [] {
      MediaMatchNone(s[1..]);
      forall i | 1 <= i <= |s| ensures s[1..][i - 1..] == s[i..] { }
      assert s[0..] == s;
    } else {
      assert MediaMatchHere(s[0..]).None?;
    }
  }

  /** `getCloudFrontUrl(url)`. `parse` stands for `new URL(u).pathname`: `None` when the constructor throws. */
  function GetCloudFrontUrl(domain: string, parse: string -> Option<string>, url: Option<string>): (r: string)
    ensures r == "" <==> url.None? || url.value == ""
    ensures url.Some? && Contains(url.value, domain) ==> r == url.value
    ensures url.Some? && r != url.value ==> StartsWith(r, "https://" + domain + "/")
  {
    if url.None? || url.value == "" then ""
    else
      var u := url.value;
      if Contains(u, domain) then u
      else if StartsWith(u, "http") then
        match parse(u)
        case Some(pathname) => CdnUrl(domain, ImagePathOfPathname(pathname))
        case None =>
          match MediaMatch(u)
          case Some(m) => CdnUrl(domain, m[1..])
          case None => u
      else CdnUrl(domain, DropLeadingSlash(u))
  }

  /** Every rewritten URL carries the domain. */
  lemma CdnUrlContainsDomain(domain: string, path: string)
    ensures Contains(CdnUrl(domain, path), domain)
  {
    ContainsInMiddle("https://", domain, "/" + path);
    assert "https://" + domain + ("/" + path) == CdnUrl(domain, path);
  }

  /** Rewriting a rewritten URL changes nothing. */
  lemma Idempotent(domain: string, parse: string -> Option<string>, url: Option<string>)
    ensures var once := GetCloudFrontUrl(domain, parse, url);
      GetCloudFrontUrl(domain, parse, Some(once)) == once
  {
    var once := GetCloudFrontUrl(domain, parse, url);
    if once != "" && url.Some? && once != url.value {
      var u := url.value;
      assert !Contains(u, domain);
      if StartsWith(u, "http") {
        match parse(u)
        case Some(pathname) => CdnUrlContainsDomain(domain, ImagePathOfPathname(pathname));
        case None =>
          match MediaMatch(u)
          case Some(m) => CdnUrlContainsDomain(domain, m[1..]);
          case None =>
      } else {
        CdnUrlContainsDomain(domain, DropLeadingSlash(u));
      }
    }
  }

  /** A relative path loses at most one leading slash and is placed under the domain. */
  lemma RelativePath(domain: string, parse: string -> Option<string>, u: string)
    requires u != "" && !Contains(u, domain) && !StartsWith(u, "http")
    ensures GetCloudFrontUrl(domain, parse, Some(u))
      == CdnUrl(domain, if StartsWith(u, "/") then u[1..] else u)
  {
  }

  /** A parseable absolute URL keeps only its path, without the image-view route prefixes. */
  lemma ParsedUrl(domain: string, parse: string -> Option<string>, u: string)
    requires !Contains(u, domain) && StartsWith(u, "http") && parse(u).Some?
    ensures GetCloudFrontUrl(domain, parse, Some(u))
      == CdnUrl(domain, DropPrefix(DropPrefix(DropLeadingSlash(parse(u).value), "api/v1/images/view/"), "images/view/"))
  {
  }

  /** An unparseable absolute URL keeps the media segment the pattern finds, or comes back untouched. */
  lemma UnparsedUrl(domain: string, parse: string -> Option<string>, u: string)
    requires !Contains(u, domain) && StartsWith(u, "http") && parse(u).None?
    ensures MediaMatch(u).Some? ==> GetCloudFrontUrl(domain, parse, Some(u)) == CdnUrl(domain, MediaMatch(u).value[1..])
    ensures (forall i :: 0 <= i <= |u| ==> MediaMatchHere(u[i..]).None?) ==> GetCloudFrontUrl(domain, parse, Some(u)) == u
  {
    MediaMatchNone(u);
  }

  /** An object key and the same key with a leading slash name the same CDN object. */
  lemma LeadingSlashIrrelevant(domain: string, parse: string -> Option<string>, key: string)
    requires key != "" && !StartsWith(key, "/") && !StartsWith(key, "http")
    requires !Contains(key, domain) && !Contains("/" + key, domain)
    ensures GetCloudFrontUrl(domain, parse, Some("/" + key)) == GetCloudFrontUrl(domain, parse, Some(key))
  {
  }

  /** A storage URL whose path is `/<key>` and the bare key name the same CDN object. */
  lemma StorageUrlAgreesWithKey(domain: string, parse: string -> Option<string>, u: string, key: string)
    requires !Contains(u, domain) && StartsWith(u, "http") && parse(u) == Some("/" + key)
    requires key != "" && !Contains(key, domain) && !StartsWith(key, "http") && !StartsWith(key, "/")
    requires !StartsWith(key, "api/v1/images/view/") && !StartsWith(key, "images/view/")
    ensures GetCloudFrontUrl(domain, parse, Some(u)) == GetCloudFrontUrl(domain, parse, Some(key))
  {
  }

  /** `{ ...item, url: getCloudFrontUrl(item.url) }` */
  function WithCdnUrl(domain: string, parse: string -> Option<string>, m: Types.Meme): Types.Meme {
    m.(url := GetCloudFrontUrl(domain, parse, Some(m.url)))
  }

  /** `transformImageUrls(items)` */
  function TransformImageUrls(domain: string, parse: string -> Option<string>, items: seq<Types.Meme>): (r: seq<Types.Meme>)
    ensures |r| == |items|
    ensures forall i :: 0 <= i < |items| ==> r[i] == WithCdnUrl(domain, parse, items[i])
  {
    if items == [] then [] else [WithCdnUrl(domain, parse, items[0])] + TransformImageUrls(domain, parse, items[1..])
  }

  /** The transform keeps length and order and changes only the `url` of each item, to its CDN form. */
  lemma TransformKeepsOtherFields(domain: string, parse: string -> Option<string>, items: seq<Types.Meme>)
    ensures var r := TransformImageUrls(domain, parse, items);
      |r| == |items| &&
      forall i :: 0 <= i < |items| ==>
        r[i].(url := items[i].url) == items[i]
        && r[i].url == GetCloudFrontUrl(domain, parse, Some(items[i].url))
        && (items[i].url == "" <==> r[i].url == "")
  {
  }

  /** Transforming an already transformed list changes nothing. */
  lemma TransformIdempotent(domain: string, parse: string -> Option<string>, items: seq<Types.Meme>)
    ensures TransformImageUrls(domain, parse, TransformImageUrls(domain, parse, items))
         == TransformImageUrls(domain, parse, items)
  {
    var once := TransformImageUrls(domain, parse, items);
    forall i | 0 <= i < |items|
      ensures WithCdnUrl(domain, parse, once[i]) == once[i]
    {
      Idempotent(domain, parse, Some(items[i].url));
    }
  }
}
