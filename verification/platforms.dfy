/**
 The closed set of social platforms a profile link can point at, the picker
 that offers them, and the table of host names each platform accepts
 (`platforms` and `platformDomains` in AddSocialMediaModal.tsx).
 */
module Platforms {
  import opened Options
  import Text

  datatype Platform = Instagram | Facebook | TikTok | Twitter | LinkedIn | Snapchat

  /** The platform picker's entries, in the order it offers them. */
  const Picker: seq<Platform> := [Instagram, Facebook, TikTok, Twitter, LinkedIn, Snapchat]

  /** Where `p` sits in the picker. */
  function IndexOf(p: Platform): (i: nat)
    ensures i < |Picker| && Picker[i] == p
  {
    match p
    case Instagram => 0
    case Facebook => 1
    case TikTok => 2
    case Twitter => 3
    case LinkedIn => 4
    case Snapchat => 5
  }

  /** The string value the picker stores for a platform. */
  function Key(p: Platform): string
  {
    match p
    case Instagram => "instagram"
    case Facebook => "facebook"
    case TikTok => "tiktok"
    case Twitter => "twitter"
    case LinkedIn => "linkedin"
    case Snapchat => "snapchat"
  }

  /** The text the picker shows for a platform. */
  function Label(p: Platform): string
  {
    match p
    case Instagram => "Instagram"
    case Facebook => "Facebook"
    case TikTok => "TikTok"
    case Twitter => "Twitter"
    case LinkedIn => "LinkedIn"
    case Snapchat => "Snapchat"
  }

  /** The platform whose picker value is `s`, if any: the inverse of `Key`. */
  function ParseKey(s: string): (r: Option<Platform>)
    ensures r.Some? ==> Key(r.value) == s
    ensures r.None? ==> forall p :: Key(p) != s
  {
    if s == "instagram" then Some(Instagram)
    else if s == "facebook" then Some(Facebook)
    else if s == "tiktok" then Some(TikTok)
    else if s == "twitter" then Some(Twitter)
    else if s == "linkedin" then Some(LinkedIn)
    else if s == "snapchat" then Some(Snapchat)
    else None
  }

  /** `platforms.find(p => p.value === s)?.label`: the label of the picker entry whose value is `s`. */
  function LabelOf(s: string): (r: Option<string>)
    ensures r.Some? <==> exists i :: 0 <= i < |Picker| && Key(Picker[i]) == s
    ensures forall p :: Key(p) == s ==> r == Some(Label(p))
  {
    var r := ParseKey(s).Map(Label);
    if r.Some? then
      assert Key(Picker[IndexOf(ParseKey(s).value)]) == s;
      r
    else
      r
  }

  /** The picker offers every platform exactly once. */
  lemma PickerListsEachPlatformOnce()
    ensures forall p :: p in Picker
    ensures forall i, j :: 0 <= i < j < |Picker| ==> Picker[i] != Picker[j]
  {
    forall p
      ensures p in Picker
    {
      assert Picker[IndexOf(p)] == p;
    }
  }

  /** Decoding a picker value gives back the platform it came from, so picker values are pairwise distinct. */
  lemma KeyRoundTrip(p: Platform)
    ensures ParseKey(Key(p)) == Some(p)
  {
  }

  /**
   `platformDomains`: for each picker value, the host names a link for that
   platform may use. Membership is exact string equality.
   */
  const PlatformDomains: map<string, set<string>> := map[
    "instagram" := {"instagram.com", "www.instagram.com"},
    "facebook" := {"facebook.com", "www.facebook.com", "fb.com"},
    "tiktok" := {"tiktok.com", "www.tiktok.com"},
    "twitter" := {"twitter.com", "www.twitter.com", "x.com", "www.x.com"},
    "linkedin" := {"linkedin.com", "www.linkedin.com"},
    "snapchat" := {"snapchat.com", "www.snapchat.com"}
  ]

  /** The table's keys are exactly the values the picker offers. */
  lemma DomainTableKeysArePickerValues()
    ensures PlatformDomains.Keys == set i | 0 <= i < |Picker| :: Key(Picker[i])
    ensures forall s :: s in PlatformDomains <==> ParseKey(s).Some?
  {
    var keys := set i | 0 <= i < |Picker| :: Key(Picker[i]);
    assert Key(Picker[0]) in keys && Key(Picker[1]) in keys && Key(Picker[2]) in keys;
    assert Key(Picker[3]) in keys && Key(Picker[4]) in keys && Key(Picker[5]) in keys;
  }

  /** The hosts a link for platform `p` may use: the table entry under its picker value. */
  function AllowedHosts(p: Platform): (hosts: set<string>)
    ensures Key(p) in PlatformDomains
    ensures hosts == PlatformDomains[Key(p)]
  {
    match p
    case Instagram => PlatformDomains["instagram"]
    case Facebook => PlatformDomains["facebook"]
    case TikTok => PlatformDomains["tiktok"]
    case Twitter => PlatformDomains["twitter"]
    case LinkedIn => PlatformDomains["linkedin"]
    case Snapchat => PlatformDomains["snapchat"]
  }

  /** Twitter also accepts the X hosts and Facebook the short fb.com host; the other platforms have no alias. */
  lemma AliasHosts()
    ensures AllowedHosts(Twitter) == {"twitter.com", "www.twitter.com", "x.com", "www.x.com"}
    ensures AllowedHosts(Facebook) == {"facebook.com", "www.facebook.com", "fb.com"}
    ensures forall p :: p != Twitter && p != Facebook ==> AllowedHosts(p) == {Key(p) + ".com", "www." + Key(p) + ".com"}
  {
    forall p | p != Twitter && p != Facebook
      ensures AllowedHosts(p) == {Key(p) + ".com", "www." + Key(p) + ".com"}
    {
      match p
      case Instagram =>
        assert Key(p) + ".com" == "instagram.com";
        assert "www." + Key(p) + ".com" == "www.instagram.com";
      case TikTok =>
        assert Key(p) + ".com" == "tiktok.com";
        assert "www." + Key(p) + ".com" == "www.tiktok.com";
      case LinkedIn =>
        assert Key(p) + ".com" == "linkedin.com";
        assert "www." + Key(p) + ".com" == "www.linkedin.com";
      case Snapchat =>
        assert Key(p) + ".com" == "snapchat.com";
        assert "www." + Key(p) + ".com" == "www.snapchat.com";
    }
  }

  /**
   Every listed host is already lower-case, so each one is matched by the
   lower-cased host name of some URL.
   */
  lemma AllowedHostsAreLowerCase(p: Platform, h: string)
    requires h in AllowedHosts(p)
    ensures Text.ToLower(h) == h
  {
    var all := set k, g | k in PlatformDomains && g in PlatformDomains[k] :: g;
    assert h in all;
    ListedHostsAreLowerCase(h);
  }

  /** Each host string the table lists is its own lower-case form. */
  lemma ListedHostsAreLowerCase(h: string)
    ensures h in {"instagram.com", "www.instagram.com", "facebook.com", "www.facebook.com", "fb.com", "tiktok.com", "www.tiktok.com", "twitter.com", "www.twitter.com", "x.com", "www.x.com", "linkedin.com", "www.linkedin.com", "snapchat.com", "www.snapchat.com"} ==> Text.ToLower(h) == h
  {
  }

  /** No host is shared between two platforms, so a URL identifies at most one platform. */
  lemma HostsIdentifyPlatform(p: Platform, q: Platform, h: string)
    requires h in AllowedHosts(p) && h in AllowedHosts(q)
    ensures p == q
  {
  }
}
