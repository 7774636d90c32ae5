/**
 `validateUrl` of AddSocialMediaModal.tsx: a link URL is accepted for a
 platform exactly when it parses and its lower-cased host name is one of the
 hosts listed for that platform.

 The URL parser (`new URL(url).hostname`) is a collaborator: it is passed in
 as `hostOf`, which yields the host name of a URL that parses and `None`
 where the constructor would throw.
 */
module LinkValidation {
  import opened Options
  import Text
  import opened Platforms

  /** What `new URL(url).hostname` yields; `None` stands for a thrown parse error. */
  type HostParser = string -> Option<string>

  /**
   `validateUrl(url, platform)`. The platform arrives as the picker's string
   value, so an unknown key is possible; it is rejected, as is a URL that
   does not parse. Neither case raises.
   */
  function ValidateUrl(url: string, platform: string, hostOf: HostParser): (ok: bool)
    ensures ok <==>
      && ParseKey(platform).Some?
      && hostOf(url).Some?
      && Text.ToLower(hostOf(url).value) in AllowedHosts(ParseKey(platform).value)
    ensures ParseKey(platform).None? ==> !ok
    ensures hostOf(url).None? ==> !ok
  {
    DomainTableKeysArePickerValues();
    match hostOf(url)
    case None => false
    case Some(host) =>
      var domain := Text.ToLower(host);
      platform in PlatformDomains && domain in PlatformDomains[platform]
  }

  /**
   Any capitalisation of a listed host is accepted: `WWW.Instagram.COM`
   passes for instagram just as `www.instagram.com` does.
   */
  lemma AcceptsEveryCapitalisation(url: string, p: Platform, hostOf: HostParser)
    requires hostOf(url).Some?
    requires Text.ToLower(hostOf(url).value) in AllowedHosts(p)
    ensures ValidateUrl(url, Key(p), hostOf)
  {
    KeyRoundTrip(p);
  }

  /**
   Host matching is exact: appending anything to a listed host, as in
   `instagram.com.evil.com`, never yields an accepted host for the same
   platform.
   */
  lemma AppendedSuffixRejected(p: Platform, h: string, x: string)
    requires h in AllowedHosts(p)
    requires |x| > 0
    ensures Text.ToLower(h + x) !in AllowedHosts(p)
  {
    Text.ToLowerAppend(h, x);
    AllowedHostsAreLowerCase(p, h);
    var lowered := h + Text.ToLower(x);
    assert lowered[..|h|] == h;
    forall g | g in AllowedHosts(p)
      ensures g != lowered
    {
      if |h| < |g| {
        NoListedHostExtendsAnother(p, h, g);
      }
    }
  }

  /** Within a platform, no listed host is a proper prefix of another. */
  lemma NoListedHostExtendsAnother(p: Platform, h: string, g: string)
    requires h in AllowedHosts(p) && g in AllowedHosts(p)
    requires |h| < |g|
    ensures g[..|h|] != h
  {
    var k := if p == Facebook && h == "fb.com" && g == "facebook.com" then 1
      else if p == Twitter && h == "www.x.com" then 4
      else 0;
    assert g[..|h|][k] != h[k];
  }

  /** The cases called out for instagram: only the two listed hosts pass. */
  lemma InstagramExamples(url: string, hostOf: HostParser)
    ensures hostOf(url) == Some("www.instagram.com") ==> ValidateUrl(url, "instagram", hostOf)
    ensures hostOf(url) == Some("WWW.Instagram.COM") ==> ValidateUrl(url, "instagram", hostOf)
    ensures hostOf(url) == Some("m.instagram.com") ==> !ValidateUrl(url, "instagram", hostOf)
    ensures hostOf(url) == Some("instagram.com.evil.com") ==> !ValidateUrl(url, "instagram", hostOf)
    ensures hostOf(url) == Some("evil.com") ==> !ValidateUrl(url, "instagram", hostOf)
  {
    assert Text.ToLower("www.instagram.com") == "www.instagram.com";
    assert Text.ToLower("WWW.Instagram.COM") == "www.instagram.com";
    assert Text.ToLower("m.instagram.com") == "m.instagram.com";
    assert Text.ToLower("evil.com") == "evil.com";
    assert "instagram.com.evil.com" == "instagram.com" + ".evil.com";
    AppendedSuffixRejected(Instagram, "instagram.com", ".evil.com");
  }

  /** Alias hosts: twitter accepts x.com and www.x.com, facebook accepts fb.com. */
  lemma AliasExamples(url: string, hostOf: HostParser)
    ensures hostOf(url) == Some("x.com") ==> ValidateUrl(url, "twitter", hostOf)
    ensures hostOf(url) == Some("www.x.com") ==> ValidateUrl(url, "twitter", hostOf)
    ensures hostOf(url) == Some("fb.com") ==> ValidateUrl(url, "facebook", hostOf)
    ensures hostOf(url) == Some("x.com") ==> !ValidateUrl(url, "facebook", hostOf)
  {
    assert Text.ToLower("x.com") == "x.com";
    assert Text.ToLower("www.x.com") == "www.x.com";
    assert Text.ToLower("fb.com") == "fb.com";
  }
}
