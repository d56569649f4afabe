/**
 * `getIconForUrl`: which brand icon a link shows, decided by substring
 * tests on the URL's hostname after its first `www.` is removed. The URL
 * parser is not modelled: the hostname arrives as an input, absent when
 * `new URL(url)` throws.
 */
module Icons {
  import opened Wrappers
  import opened Text

  datatype Icon = Link | Github | Twitter | Instagram | Youtube | Twitch | Linkedin

  /** `hostname.replace('www.', '')`: the first `www.`, wherever it stands, is removed. */
  function Domain(hostname: string): string {
    ReplaceFirst(hostname, "www.", "")
  }

  /** The chain of `includes` tests, in source order, with `Link` as the fallback. */
  function IconForDomain(domain: string): Icon {
    if Contains(domain, "github.com") then Github
    else if Contains(domain, "twitter.com") || Contains(domain, "x.com") then Twitter
    else if Contains(domain, "instagram.com") then Instagram
    else if Contains(domain, "youtube.com") then Youtube
    else if Contains(domain, "twitch.tv") then Twitch
    else if Contains(domain, "linkedin.com") then Linkedin
    else Link
  }

  /** `getIconForUrl(url)`, given the parsed hostname or `None` for a URL that does not parse. */
  function IconForUrl(hostname: Option<string>): (icon: Icon)
    ensures hostname.None? ==> icon == Link
  {
    match hostname
    case None => Link
    case Some(h) => IconForDomain(Domain(h))
  }

  /** The patterns in the order they are tried, each with the icon it selects. */
  const Patterns: seq<(string, Icon)> := [
    ("github.com", Github), ("twitter.com", Twitter), ("x.com", Twitter), ("instagram.com", Instagram),
    ("youtube.com", Youtube), ("twitch.tv", Twitch), ("linkedin.com", Linkedin)]

  /**
   * First match wins: when pattern `k` is the first one the domain
   * contains, its icon is chosen, whatever later patterns also occur.
   */
  lemma IconFirstMatch(domain: string, k: nat)
    requires k < |Patterns| && Contains(domain, Patterns[k].0)
    requires forall j :: 0 <= j < k ==> !Contains(domain, Patterns[j].0)
    ensures IconForDomain(domain) == Patterns[k].1
  {
    var ps := Patterns;
    assert ps[0].0 == "github.com" && ps[1].0 == "twitter.com" && ps[2].0 == "x.com";
    assert ps[3].0 == "instagram.com" && ps[4].0 == "youtube.com" && ps[5].0 == "twitch.tv" && ps[6].0 == "linkedin.com";
    if k > 0 { assert !Contains(domain, ps[0].0); }
    if k > 1 { assert !Contains(domain, ps[1].0); }
    if k > 2 { assert !Contains(domain, ps[2].0); }
    if k > 3 { assert !Contains(domain, ps[3].0); }
    if k > 4 { assert !Contains(domain, ps[4].0); }
    if k > 5 { assert !Contains(domain, ps[5].0); }
  }

  /** A parsed hostname yields `Link` exactly when its domain contains none of the seven patterns. */
  lemma IconLinkIffNoMatch(hostname: string)
    ensures IconForUrl(Some(hostname)) == Link <==>
      forall j :: 0 <= j < |Patterns| ==> !Contains(Domain(hostname), Patterns[j].0)
  {
    var ps := Patterns;
    assert ps[0].0 == "github.com" && ps[1].0 == "twitter.com" && ps[2].0 == "x.com";
    assert ps[3].0 == "instagram.com" && ps[4].0 == "youtube.com" && ps[5].0 == "twitch.tv" && ps[6].0 == "linkedin.com";
    assert |ps| == 7;
  }

  /** A host beginning with `www.` is matched without it. */
  lemma LeadingWwwIgnored(hostname: string)
    requires StartsWith(hostname, "www.")
    ensures IconForUrl(Some(hostname)) == IconForDomain(hostname[4..])
  {
    ReplaceFirstLeading(hostname, "www.", "");
    assert "" + hostname[4..] == hostname[4..];
  }

  /** Matching is by substring: `dropbox.com` contains `x.com` and shows the Twitter icon. */
  lemma DropboxShowsTwitter()
    ensures IconForUrl(Some("www.dropbox.com")) == Twitter
  {
    var host := "www.dropbox.com";
    LeadingWwwIgnored(host);
    var d := host[4..];
    assert d == "dropbox.com";
    ContainsIff(d, "x.com");
    assert OccursAt(d, "x.com", 6);
    ContainsIff(d, "github.com");
    forall i: nat ensures !OccursAt(d, "github.com", i) {
      if i + 10 <= |d| {
        assert d[i] != "github.com"[0];
      }
    }
    ContainsIff(d, "twitter.com");
  }
}
