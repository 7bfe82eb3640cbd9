/**
 * `urllib.parse.urlparse` on ASCII text, as Python 3.9 defines it: the
 * scheme, the `//` network location, `;` parameters (for the schemes that
 * use them), the `?` query and the `#` fragment.
 */
module Urls {
  import opened Wrappers
  import Strings

  datatype Url = Url(scheme: string, netloc: string, path: string, params: string, query: string, fragment: string)

  /** The only error `urlsplit` raises on ASCII input. */
  datatype UrlError = InvalidIPv6

  /** The first index at or after `start` holding `c`, or -1 (`s.find(c, start)`). */
  function FindFrom(s: string, c: char, start: nat): (r: int)
    ensures r == -1 || start <= r < |s|
    ensures r >= 0 ==> s[r] == c
    ensures forall k :: start <= k < |s| && (r == -1 || k < r) ==> s[k] != c
    decreases |s| - start
  {
    if start >= |s| then -1
    else if s[start] == c then start
    else FindFrom(s, c, start + 1)
  }

  /** The last index holding `c`, or -1 (`s.rfind(c)`). */
  function RFind(s: string, c: char): (r: int)
    ensures r == -1 || 0 <= r < |s|
    ensures r >= 0 ==> s[r] == c
    ensures forall k :: 0 <= k < |s| && k > r ==> s[k] != c
    decreases |s|
  {
    if s == [] then -1
    else if s[|s| - 1] == c then |s| - 1
    else RFind(s[..|s| - 1], c)
  }

  predicate SchemeChar(c: char)
  {
    'a' <= c <= 'z' || 'A' <= c <= 'Z' || '0' <= c <= '9' || c == '+' || c == '-' || c == '.'
  }

  predicate AllSchemeChars(s: string)
  {
    forall k :: 0 <= k < |s| ==> SchemeChar(s[k])
  }

  /** `uses_params`: the schemes whose last path segment may carry `;params`. */
  const UsesParams: set<string> := {"", "ftp", "hdl", "prospero", "http", "imap", "https", "shttp",
    "rtsp", "rtspu", "sip", "sips", "mms", "sftp", "tel"}

  predicate IsDelimiter(c: char)
  {
    c == '/' || c == '?' || c == '#'
  }

  /** The first `/`, `?` or `#` at or after `i`, or the end: the least of the three `find`s in `_splitnetloc`. */
  function DelimiterFrom(url: string, i: nat): (e: nat)
    requires i <= |url|
    ensures i <= e <= |url|
    ensures forall k :: i <= k < e ==> !IsDelimiter(url[k])
    ensures e < |url| ==> IsDelimiter(url[e])
    decreases |url| - i
  {
    if i == |url| || IsDelimiter(url[i]) then i else DelimiterFrom(url, i + 1)
  }

  /** `_splitnetloc(url, 2)`: the location runs from index 2 to the first delimiter. */
  function NetlocEnd(url: string): (e: nat)
    requires |url| >= 2
    ensures 2 <= e <= |url|
    ensures forall k :: 2 <= k < e ==> !IsDelimiter(url[k])
    ensures e < |url| ==> IsDelimiter(url[e])
  {
    DelimiterFrom(url, 2)
  }

  /** `s.split(c, 1)` when `c` occurs in `s`. */
  function SplitAt(s: string, i: nat): (string, string)
    requires i < |s|
  {
    (s[..i], s[i + 1..])
  }

  /** `_splitparams(path)` */
  function SplitParams(path: string): (string, string)
    requires ';' in path
  {
    var i := if '/' in path then FindFrom(path, ';', RFind(path, '/') as nat) else FindFrom(path, ';', 0);
    if i < 0 then (path, "") else SplitAt(path, i)
  }

  /** `urllib.parse.urlparse(url)` */
  function UrlParse(url: string): (r: Result<Url, UrlError>)
  {
    var colon := FindFrom(url, ':', 0);
    var (scheme, afterScheme) :=
      if colon > 0 && AllSchemeChars(url[..colon]) then (Strings.Lower(url[..colon]), url[colon + 1..])
      else ("", url);
    var (netloc, afterNetloc) :=
      if |afterScheme| >= 2 && afterScheme[..2] == "//" then
        var e := NetlocEnd(afterScheme);
        (afterScheme[2..e], afterScheme[e..])
      else ("", afterScheme);
    if ('[' in netloc && ']' !in netloc) || (']' in netloc && '[' !in netloc) then Failure(InvalidIPv6)
    else
      var hash := FindFrom(afterNetloc, '#', 0);
      var (beforeHash, fragment) := if hash >= 0 then SplitAt(afterNetloc, hash) else (afterNetloc, "");
      var mark := FindFrom(beforeHash, '?', 0);
      var (path0, query) := if mark >= 0 then SplitAt(beforeHash, mark) else (beforeHash, "");
      var (path, params) := if scheme in UsesParams && ';' in path0 then SplitParams(path0) else (path0, "");
      Success(Url(scheme, netloc, path, params, query, fragment))
  }

  /** Python's `s[1:]`. */
  function DropFirst(s: string): string
  {
    if s == [] then [] else s[1..]
  }

  predicate Plain(s: string)
  {
    '/' !in s && '?' !in s && '#' !in s && '[' !in s && ']' !in s
  }

  /** `gs://<bucket>/<prefix>` splits into the bucket as the location and `/<prefix>` as the path. */
  lemma GsUrl(bucket: string, prefix: string)
    requires Plain(bucket)
    requires '?' !in prefix && '#' !in prefix
    ensures UrlParse("gs://" + bucket + "/" + prefix) == Success(Url("gs", bucket, "/" + prefix, "", "", ""))
  {
    var url := "gs://" + bucket + "/" + prefix;
    assert url[..2] == "gs";
    assert FindFrom(url, ':', 0) == 2 by {
      assert url[0] == 'g' && url[1] == 's' && url[2] == ':';
    }
    assert AllSchemeChars(url[..2]);
    assert Strings.Lower("gs") == "gs";
    var rest := url[3..];
    assert rest == "//" + bucket + "/" + prefix;
    assert rest[2 + |bucket|] == '/';
    forall k | 2 <= k < 2 + |bucket|
      ensures !IsDelimiter(rest[k])
    {
      assert rest[k] == bucket[k - 2];
    }
    var e := NetlocEnd(rest);
    assert e == 2 + |bucket|;
    assert rest[2..e] == bucket;
    var tail := rest[e..];
    assert tail == "/" + prefix;
    assert '#' !in tail && '?' !in tail;
    assert "gs" !in UsesParams;
  }

  /** A location without a path: the path and the prefix cut from it are empty. */
  lemma GsUrlWithoutPath(bucket: string)
    requires Plain(bucket)
    ensures UrlParse("gs://" + bucket) == Success(Url("gs", bucket, "", "", "", ""))
  {
    var url := "gs://" + bucket;
    assert url[0] == 'g' && url[1] == 's' && url[2] == ':';
    assert FindFrom(url, ':', 0) == 2;
    assert url[..2] == "gs";
    assert AllSchemeChars(url[..2]);
    assert Strings.Lower("gs") == "gs";
    var rest := url[3..];
    assert rest == "//" + bucket;
    forall k | 2 <= k < |rest|
      ensures !IsDelimiter(rest[k])
    {
      assert rest[k] == bucket[k - 2];
    }
    var e := NetlocEnd(rest);
    assert e == |rest|;
    assert rest[2..e] == bucket;
    assert rest[e..] == "";
    assert FindFrom("", '#', 0) == -1 && FindFrom("", '?', 0) == -1;
    assert "gs" !in UsesParams;
  }
}
