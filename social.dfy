/** `detect_social_media_links`: anchors naming a known social-media domain. */
module Social {
  import opened Text
  import opened Patterns

  /** The platform catalog: each platform with the domain its pattern names
      (the dot is escaped in every pattern, so each is a literal). */
  const Platforms: seq<(string, string)> := [
    ("Facebook", "facebook.com"),
    ("Twitter", "twitter.com"),
    ("LinkedIn", "linkedin.com"),
    ("Instagram", "instagram.com"),
    ("YouTube", "youtube.com"),
    ("Pinterest", "pinterest.com"),
    ("TikTok", "tiktok.com"),
    ("Reddit", "reddit.com")
  ]

  /** The catalog as compiled case-insensitive patterns. */
  function PlatformRules(): seq<Rule> {
    seq(|Platforms|, k requires 0 <= k < |Platforms| => Rule(Platforms[k].0, Literal(Platforms[k].1)))
  }

  /** Every (platform, href) pair whose pattern is found in the raw href. */
  function SocialLinks(hrefs: seq<string>): (found: set<(string, string)>)
    ensures forall p, h :: (p, h) in found <==> h in hrefs && p in Hits(PlatformRules(), h)
  {
    if hrefs == [] then {}
    else
      var h := hrefs[|hrefs| - 1];
      SocialLinks(hrefs[..|hrefs| - 1]) + set p | p in Hits(PlatformRules(), h) :: (p, h)
  }

  /** A pair is reported exactly when the raw href contains the platform's
      domain, ignoring case. */
  lemma SocialLinkByDomain(hrefs: seq<string>, p: string, h: string)
    ensures (p, h) in SocialLinks(hrefs) <==>
      h in hrefs && exists k :: 0 <= k < |Platforms| && Platforms[k].0 == p && Contains(Lower(h), Lower(Platforms[k].1))
  {
    var rules := PlatformRules();
    forall k | 0 <= k < |Platforms|
      ensures Search(rules[k].pattern, h) <==> Contains(Lower(h), Lower(Platforms[k].1))
    {
      EscapedSearch(Platforms[k].1, h);
    }
  }

  /** A profile link is reported under its platform whatever the case of its
      domain, and the same href listed twice yields a single pair. */
  lemma TwitterExample()
    ensures ("Twitter", "https://Twitter.COM/acme") in SocialLinks(["https://Twitter.COM/acme", "https://Twitter.COM/acme"])
  {
    var h := "https://Twitter.COM/acme";
    assert OccursAt(Lower("twitter.com"), Lower(h), 8);
    assert Platforms[1] == ("Twitter", "twitter.com");
    SocialLinkByDomain([h, h], "Twitter", h);
  }
}
