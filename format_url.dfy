/**
 * `formatURL` of utils/formatURL.ts: rewrite the origin (scheme, host and port) of a URL to
 * the origin of the configured API base URL, leaving the rest of the URL as it is.
 *
 * The origin is what `/^(https?:\/\/[^/]+)/` matches: lower-case `http://` or `https://`
 * followed by the longest non-empty run of characters other than `/`.
 */
module FormatUrl {
  import opened Wrappers
  import opened Text

  /** No `/` in `s[from..to]`. */
  predicate NoSlash(s: string, from: nat, to: nat) {
    from <= to <= |s| && forall i :: from <= i < to ==> s[i] != '/'
  }

  /**
   * The regular expression matches `s[..n]`: a scheme, a non-empty host part without `/`,
   * and (the `[^/]+` being greedy) the host part runs up to the end or the first `/`.
   */
  predicate OriginMatch(s: string, n: nat) {
    && ((StartsWith(s, "http://") && 7 < n && NoSlash(s, 7, n)) || (StartsWith(s, "https://") && 8 < n && NoSlash(s, 8, n)))
    && (n == |s| || s[n] == '/')
  }

  /** No string starts with both schemes: the fifth character is `s` in one and `:` in the other. */
  lemma SchemesExclusive(s: string)
    ensures !(StartsWith(s, "https://") && StartsWith(s, "http://"))
  {
    if StartsWith(s, "https://") {
      assert s[4] == s[..8][4] == 's';
    }
  }

  /** The length of the scheme `s` starts with, 0 for none. */
  function SchemeLength(s: string): (k: nat)
    ensures k == 8 <==> StartsWith(s, "https://")
    ensures k == 7 <==> StartsWith(s, "http://")
    ensures k == 0 || k == 7 || k == 8
  {
    SchemesExclusive(s);
    if StartsWith(s, "https://") then 8 else if StartsWith(s, "http://") then 7 else 0
  }

  /** Where the run of non-`/` characters that starts at `i` ends. */
  function HostEnd(s: string, i: nat): (e: nat)
    requires i <= |s|
    ensures NoSlash(s, i, e)
    ensures e == |s| || s[e] == '/'
    decreases |s| - i
  {
    if i < |s| && s[i] != '/' then HostEnd(s, i + 1) else i
  }

  /** The length of the origin `s` starts with, if it has one. */
  function Origin(s: string): (r: Option<nat>)
    ensures forall n: nat :: r == Some(n) <==> OriginMatch(s, n)
  {
    var k := SchemeLength(s);
    if k == 0 then None
    else
      var e := HostEnd(s, k);
      // Two matches would both end at the first `/` after the scheme.
      assert forall n: nat :: OriginMatch(s, n) ==> n == e;
      if e > k then Some(e) else None
  }

  /** `formatURL(url)` with `Config.API.BASE_URL` = `base`. */
  function FormatUrl(url: string, base: string): (r: string)
    ensures url == "" || StartsWith(url, base) ==> r == url
    ensures forall u: nat, b: nat :: url != "" && !StartsWith(url, base) && OriginMatch(url, u) && OriginMatch(base, b) ==>
      r == base[..b] + url[u..]
    ensures Origin(url).None? || Origin(base).None? ==> r == url
    ensures Origin(url).Some? ==> var u := Origin(url).value;
      |url| - u <= |r| && r[|r| - (|url| - u)..] == url[u..]
  {
    if url == "" then url
    else if StartsWith(url, base) then url
    else
      match (Origin(url), Origin(base))
      case (Some(u), Some(b)) => base[..b] + url[u..]
      case _ => url
  }

  /** An origin followed by an empty path or one that starts with `/` is matched as that origin. */
  lemma OriginOfJoin(base: string, b: nat, rest: string)
    requires OriginMatch(base, b)
    requires rest == [] || rest[0] == '/'
    ensures Origin(base[..b] + rest) == Some(b)
  {
    var s := base[..b] + rest;
    assert s[..b] == base[..b];
    assert StartsWith(base, "https://") ==> StartsWith(s, "https://") by {
      if StartsWith(base, "https://") { assert s[..8] == base[..8]; }
    }
    assert StartsWith(base, "http://") ==> StartsWith(s, "http://") by {
      if StartsWith(base, "http://") { assert s[..7] == base[..7]; }
    }
    assert OriginMatch(s, b);
  }

  /** Formatting twice gives what formatting once gives. */
  lemma FormatUrlIdempotent(url: string, base: string)
    ensures FormatUrl(FormatUrl(url, base), base) == FormatUrl(url, base)
  {
    var r := FormatUrl(url, base);
    if url != "" && !StartsWith(url, base) && Origin(url).Some? && Origin(base).Some? {
      var u, b := Origin(url).value, Origin(base).value;
      assert r == base[..b] + url[u..];
      OriginOfJoin(base, b, url[u..]);
      if !StartsWith(r, base) {
        assert r[b..] == url[u..];
      }
    }
  }
}
