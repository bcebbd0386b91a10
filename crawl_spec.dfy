/**
 * What the crawl accumulates, stated over the sequence of URLs it fetched
 * (its fetch log, in the order the frontier handed them out). Every
 * accumulator is a function of that log; a URL whose request raises or whose
 * status makes `raise_for_status()` raise adds nothing to any of them.
 */
module CrawlSpec {
  import opened Wrappers
  import opened Page
  import opened Links
  import opened Images
  import opened Social
  import opened Plugins

  /** The site snapshot together with `urljoin` and `urlparse(...).netloc`,
      which are not part of this model and are taken as given functions. */
  datatype Web = Web(site: Site, resolve: (Url, string) -> Url, netloc: Url -> string)

  /** The Content-Length header of every page that fetches, where present,
      is a run of decimal digits; pages that fail are never read. */
  predicate WellFormed(site: Site) {
    forall u :: u in site && !RaisesForStatus(site[u]) ==> ContentLengthNumeric(site[u])
  }

  /** `get_all_links(u, domain, session)` for a page in the site. */
  function PageLinks(w: Web, domain: string, u: Url): set<Url>
    requires u in w.site
  {
    SameDomainLinks(u, w.site[u].anchors, domain, w.resolve, w.netloc)
  }

  /** The images a URL adds to `total_images`. */
  function ImagesPerPage(w: Web): Url -> nat {
    u => if Fetches(w.site, u) then CountImages(w.site[u]) else 0
  }

  /** The bytes a URL adds to `total_bandwidth`. */
  function BandwidthPerPage(w: Web): Url -> nat
    requires WellFormed(w.site)
  {
    u => if Fetches(w.site, u) then Bandwidth(w.site[u]) else 0
  }

  /** The sum of `f` over the log. */
  function Total(log: seq<Url>, f: Url -> nat): nat {
    if log == [] then 0 else Total(log[..|log| - 1], f) + f(log[|log| - 1])
  }

  /** The union of `f` over the log. */
  function Union<T(!new)>(log: seq<Url>, f: Url -> set<T>): (s: set<T>)
    ensures forall x :: x in s <==> exists i :: 0 <= i < |log| && x in f(log[i])
  {
    if log == [] then {}
    else
      var init := log[..|log| - 1];
      assert forall i :: 0 <= i < |init| ==> init[i] == log[i];
      Union(init, f) + f(log[|log| - 1])
  }

  /** The links a URL adds to `total_urls_detected` (and offers to `to_visit`). */
  function LinksPerPage(w: Web, domain: string): Url -> set<Url> {
    u => if Fetches(w.site, u) then PageLinks(w, domain, u) else {}
  }

  /** The pairs a URL adds to `social_media_links_detected`. */
  function SocialPerPage(w: Web): Url -> set<(string, Url)> {
    u => if Fetches(w.site, u) then SocialLinks(w.site[u].anchors) else {}
  }

  /** No URL of the log fetched: each request raised or came back 4xx/5xx. */
  predicate NoneFetched(site: Site, log: seq<Url>) {
    forall i :: 0 <= i < |log| ==> !Fetches(site, log[i])
  }

  /** `all_texts`: a space and the page text for every page that fetched, in
      fetch order. It is empty exactly when no page fetched. */
  function TextOf(w: Web, log: seq<Url>): (t: string)
    ensures t == "" <==> NoneFetched(w.site, log)
  {
    if log == [] then ""
    else
      var init, u := log[..|log| - 1], log[|log| - 1];
      assert forall i :: 0 <= i < |init| ==> init[i] == log[i];
      TextOf(w, init) + if Fetches(w.site, u) then " " + w.site[u].text else ""
  }

  /** A visit fails, and adds no text, exactly when its request raises or
      `raise_for_status()` raises: the URL is missing from the snapshot or
      its status is a 4xx client error or a 5xx server error. */
  lemma TextUnchangedIffFails(w: Web, log: seq<Url>, url: Url)
    ensures TextOf(w, log + [url]) == TextOf(w, log) <==>
            (url !in w.site || 400 <= w.site[url].status < 600)
  {
  }

  /** The first URL of the log that fetched, if any. */
  function FirstFetched(site: Site, log: seq<Url>): (f: Option<Url>)
    ensures f.None? <==> NoneFetched(site, log)
    ensures f.Some? ==> exists i :: 0 <= i < |log| && log[i] == f.value && Fetches(site, log[i]) &&
                                    (forall j :: 0 <= j < i ==> !Fetches(site, log[j]))
  {
    if log == [] then None
    else
      var init, u := log[..|log| - 1], log[|log| - 1];
      assert forall i :: 0 <= i < |init| ==> init[i] == log[i];
      var f := FirstFetched(site, init);
      if f.Some? then f else if Fetches(site, u) then Some(u) else None
  }

  /** `plugins_detected`: `set()` until a page fetches, then whatever
      `detect_plugins` said about the first page that fetched. It is falsy
      exactly when no page fetched, so no later page is checked. */
  function PluginsOf(w: Web, log: seq<Url>): (v: Verdict)
    ensures !Truthy(v) <==> NoneFetched(w.site, log)
  {
    match FirstFetched(w.site, log)
    case None => Found({})
    case Some(u) => DetectPlugins(u, Get(w.site, u))
  }

  /** Every URL the crawl can ever hold: the seed and every resolved anchor
      of every page of the site. It is finite, which bounds the crawl. */
  ghost function Universe(w: Web, seed: Url): set<Url> {
    {seed} + set u, h | u in w.site && h in w.site[u].anchors :: w.resolve(u, h)
  }

  lemma LinksInUniverse(w: Web, seed: Url, domain: string, u: Url)
    requires u in w.site
    ensures PageLinks(w, domain, u) <= Universe(w, seed)
  {
    forall l | l in PageLinks(w, domain, u) ensures l in Universe(w, seed) {
      var i :| 0 <= i < |w.site[u].anchors| && l == w.resolve(u, w.site[u].anchors[i]);
      var h := w.site[u].anchors[i];
      assert h in w.site[u].anchors;
    }
  }

  /** `u` is a same-domain link of a page fetched among the first `n` URLs of the log. */
  ghost predicate LinkedBefore(w: Web, seed: Url, log: seq<Url>, n: int, u: Url)
    requires n <= |log|
  {
    exists j :: 0 <= j < n && Fetches(w.site, log[j]) && u in PageLinks(w, w.netloc(seed), log[j])
  }

  /** The fetch log of a finished crawl from `seed`: the seed first, no URL
      twice, every later URL a same-domain link of a page fetched before it,
      and every same-domain link of every page that fetched is in the log. */
  ghost predicate CrawlOrder(w: Web, seed: Url, log: seq<Url>) {
    && |log| > 0 && log[0] == seed
    && (forall i, j :: 0 <= i < j < |log| ==> log[i] != log[j])
    && (forall i :: 0 < i < |log| ==> LinkedBefore(w, seed, log, i, log[i]))
    && (forall i, l :: 0 <= i < |log| && Fetches(w.site, log[i]) && l in PageLinks(w, w.netloc(seed), log[i]) ==> l in log)
  }
}
