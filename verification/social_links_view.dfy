/**
 The social-media section of a profile (SocialMediaLinks.tsx): a read-only
 projection of the profile's links into rows, one per link, in the order
 given, with a platform icon and name and badges derived from the link's
 `verified` flag and report count.
 */
module SocialLinksView {
  import opened Platforms

  /** A link as the section receives it. */
  datatype SocialLink = SocialLink(
    id: string,
    platform: Platform,
    url: string,
    addedBy: string,
    addedByName: string,
    addedAt: string,
    verified: bool,
    reportCount: int)

  /** Where the icons are served from; each icon is `<key>.svg` there. */
  const IconBase: string := "https://cdn.jsdelivr.net/npm/simple-icons@v9/icons/"

  /** `platformIcons`, defined for every platform. */
  function Icon(p: Platform): (url: string)
    ensures url == IconBase + Key(p) + ".svg"
  {
    match p
    case Instagram =>
      assert IconBase + "instagram" + ".svg" == "https://cdn.jsdelivr.net/npm/simple-icons@v9/icons/instagram.svg";
      "https://cdn.jsdelivr.net/npm/simple-icons@v9/icons/instagram.svg"
    case Facebook =>
      assert IconBase + "facebook" + ".svg" == "https://cdn.jsdelivr.net/npm/simple-icons@v9/icons/facebook.svg";
      "https://cdn.jsdelivr.net/npm/simple-icons@v9/icons/facebook.svg"
    case TikTok =>
      assert IconBase + "tiktok" + ".svg" == "https://cdn.jsdelivr.net/npm/simple-icons@v9/icons/tiktok.svg";
      "https://cdn.jsdelivr.net/npm/simple-icons@v9/icons/tiktok.svg"
    case Twitter =>
      assert IconBase + "twitter" + ".svg" == "https://cdn.jsdelivr.net/npm/simple-icons@v9/icons/twitter.svg";
      "https://cdn.jsdelivr.net/npm/simple-icons@v9/icons/twitter.svg"
    case LinkedIn =>
      assert IconBase + "linkedin" + ".svg" == "https://cdn.jsdelivr.net/npm/simple-icons@v9/icons/linkedin.svg";
      "https://cdn.jsdelivr.net/npm/simple-icons@v9/icons/linkedin.svg"
    case Snapchat =>
      assert IconBase + "snapchat" + ".svg" == "https://cdn.jsdelivr.net/npm/simple-icons@v9/icons/snapchat.svg";
      "https://cdn.jsdelivr.net/npm/simple-icons@v9/icons/snapchat.svg"
  }

  /** `platformNames`, defined for every platform; it agrees with the picker's labels. */
  function Name(p: Platform): (name: string)
    ensures name == Label(p)
  {
    match p
    case Instagram => "Instagram"
    case Facebook => "Facebook"
    case TikTok => "TikTok"
    case Twitter => "Twitter"
    case LinkedIn => "LinkedIn"
    case Snapchat => "Snapchat"
  }

  /** Distinct platforms have distinct names and distinct icons. */
  lemma NamesAndIconsIdentifyPlatform(p: Platform, q: Platform)
    requires Name(p) == Name(q) || Icon(p) == Icon(q)
    ensures p == q
  {
    if Icon(p) == Icon(q) {
      var n := |IconBase|;
      assert Icon(p)[n..|Icon(p)| - 4] == Key(p);
      assert Icon(q)[n..|Icon(q)| - 4] == Key(q);
      KeyRoundTrip(p);
      KeyRoundTrip(q);
    }
  }

  /** One rendered row. */
  datatype Row = Row(
    key: string,
    icon: string,
    name: string,
    checkIcon: bool,
    warningIcon: bool,
    verifiedBadge: bool,
    url: string,
    addedByName: string)

  /** What the section shows: the placeholder text, or the rows. */
  datatype View = Placeholder | Rows(rows: seq<Row>)

  /** The row for one link. */
  function RowOf(l: SocialLink): (r: Row)
    ensures r.key == l.id && r.url == l.url && r.addedByName == l.addedByName
    ensures r.icon == Icon(l.platform) && r.name == Name(l.platform)
    ensures r.checkIcon <==> l.verified
    ensures r.verifiedBadge <==> l.verified
    ensures r.warningIcon <==> l.reportCount > 0
  {
    Row(l.id, Icon(l.platform), Name(l.platform), l.verified, l.reportCount > 0, l.verified, l.url, l.addedByName)
  }

  /** `links.map(...)`: one row per link, in the same order. */
  function RowsOf(links: seq<SocialLink>): (rows: seq<Row>)
    ensures |rows| == |links|
    ensures forall i :: 0 <= i < |links| ==> rows[i] == RowOf(links[i])
    decreases |links|
  {
    if links == [] then [] else [RowOf(links[0])] + RowsOf(links[1..])
  }

  /** The whole section: the placeholder exactly when there are no links. */
  function Render(links: seq<SocialLink>): (v: View)
    ensures v.Placeholder? <==> links == []
    ensures v.Rows? ==> |v.rows| == |links|
    ensures v.Rows? ==> forall i :: 0 <= i < |links| ==> v.rows[i] == RowOf(links[i])
    ensures v.Rows? ==> forall i :: 0 <= i < |links| ==> v.rows[i].key == links[i].id
  {
    if |links| == 0 then Placeholder else Rows(RowsOf(links))
  }

  /**
   No link is filtered out or reordered: rendering a list made of two parts
   gives the rows of the first part followed by the rows of the second,
   whatever their `verified` flags and report counts.
   */
  lemma {:induction false} RowsOfAppend(a: seq<SocialLink>, b: seq<SocialLink>)
    ensures RowsOf(a + b) == RowsOf(a) + RowsOf(b)
    decreases |a|
  {
    if a != [] {
      assert (a + b)[1..] == a[1..] + b;
      RowsOfAppend(a[1..], b);
    } else {
      assert a + b == b;
    }
  }

  /** The number of rows that show the verified badge equals the number of verified links. */
  lemma {:induction false} BadgeCountMatchesVerifiedLinks(links: seq<SocialLink>)
    ensures CountBadges(RowsOf(links)) == CountVerified(links)
    decreases |links|
  {
    if links != [] {
      BadgeCountMatchesVerifiedLinks(links[1..]);
      assert RowsOf(links)[1..] == RowsOf(links[1..]);
    }
  }

  function CountBadges(rows: seq<Row>): nat
  {
    if rows == [] then 0 else (if rows[0].verifiedBadge then 1 else 0) + CountBadges(rows[1..])
  }

  function CountVerified(links: seq<SocialLink>): nat
  {
    if links == [] then 0 else (if links[0].verified then 1 else 0) + CountVerified(links[1..])
  }
}
