/**
 * `get_all_links`: the anchors of a page, resolved against the page URL, kept
 * when their host equals the crawl's domain. URL resolution (`urljoin`) and
 * host extraction (`urlparse(...).netloc`) are passed in as functions.
 */
module Links {
  import opened Page

  function SameDomainLinks(pageUrl: Url, hrefs: seq<string>, domain: string,
                           resolve: (Url, string) -> Url, netloc: Url -> string): (links: set<Url>)
    ensures forall l :: l in links <==>
      exists i :: 0 <= i < |hrefs| && l == resolve(pageUrl, hrefs[i]) && netloc(l) == domain
  {
    if hrefs == [] then {}
    else
      var init := hrefs[..|hrefs| - 1];
      assert forall i :: 0 <= i < |init| ==> init[i] == hrefs[i];
      var full := resolve(pageUrl, hrefs[|hrefs| - 1]);
      SameDomainLinks(pageUrl, init, domain, resolve, netloc) + if netloc(full) == domain then {full} else {}
  }

}
