/**
 * `main(start_url)`: the crawl loop. It pops an arbitrary URL from the
 * frontier, marks it visited before fetching it, and on a successful fetch
 * updates every accumulator; a failed fetch only costs the URL its visit.
 */
module Crawl {
  import opened Wrappers
  import opened Text
  import opened Page
  import opened Links
  import opened Images
  import opened Social
  import opened Plugins
  import opened Keywords
  import opened CrawlSpec

  /** The values `main` reports at the end of a run. */
  datatype Report = Report(
    urlsDetected: set<Url>,                // total_urls_detected; its size is printed
    bandwidth: nat,                        // total_bandwidth, in bytes
    images: nat,                           // total_images
    plugins: Verdict,                      // plugins_detected
    social: set<(string, Url)>,            // social_media_links_detected
    keywords: Option<seq<(string, nat)>>)  // analyze_keywords(all_texts), run only if all_texts is non-empty

  /** `visited` is exactly the URLs of the log, each once; the visited and the
      waiting URLs lie in the universe; the seed comes first. */
  ghost predicate Bookkept(w: Web, seed: Url, visited: set<Url>, toVisit: set<Url>, log: seq<Url>) {
    && (forall u :: u in visited <==> u in log)
    && (forall i, j :: 0 <= i < j < |log| ==> log[i] != log[j])
    && visited <= Universe(w, seed) && toVisit <= Universe(w, seed)
    && (log == [] ==> toVisit == {seed})
    && (log != [] ==> log[0] == seed)
  }

  /** Every URL of the log after the seed was found on a page fetched earlier. */
  ghost predicate Reached(w: Web, seed: Url, log: seq<Url>) {
    forall i :: 0 < i < |log| ==> LinkedBefore(w, seed, log, i, log[i])
  }

  /** Once the seed is visited, every waiting URL was found on a fetched page. */
  ghost predicate Pending(w: Web, seed: Url, toVisit: set<Url>, log: seq<Url>) {
    log != [] ==> forall u :: u in toVisit ==> LinkedBefore(w, seed, log, |log|, u)
  }

  /** Every link of a fetched page is visited or waiting. */
  ghost predicate Closed(w: Web, seed: Url, visited: set<Url>, toVisit: set<Url>, log: seq<Url>) {
    forall i, l :: 0 <= i < |log| && Fetches(w.site, log[i]) && l in PageLinks(w, w.netloc(seed), log[i]) ==>
      l in visited || l in toVisit
  }

  /** The state of the frontier between two iterations. */
  ghost predicate FrontierInv(w: Web, seed: Url, visited: set<Url>, toVisit: set<Url>, log: seq<Url>) {
    && Bookkept(w, seed, visited, toVisit, log)
    && Reached(w, seed, log)
    && Pending(w, seed, toVisit, log)
    && Closed(w, seed, visited, toVisit, log)
  }

  /** The frontier after popping `url`, visiting it, and adding its links
      (none when the fetch failed) minus the visited set. */
  function NextFrontier(w: Web, seed: Url, visited: set<Url>, toVisit: set<Url>, url: Url): set<Url>
    requires url in toVisit
  {
    if Fetches(w.site, url) then (toVisit - {url}) + (PageLinks(w, w.netloc(seed), url) - (visited + {url}))
    else toVisit - {url}
  }

  lemma BookkeptStep(w: Web, seed: Url, visited: set<Url>, toVisit: set<Url>, log: seq<Url>, url: Url)
    requires Bookkept(w, seed, visited, toVisit, log) && url in toVisit && url !in visited
    ensures Bookkept(w, seed, visited + {url}, NextFrontier(w, seed, visited, toVisit, url), log + [url])
  {
    if Fetches(w.site, url) {
      LinksInUniverse(w, seed, w.netloc(seed), url);
    }
    var log' := log + [url];
    forall u ensures u in visited + {url} <==> u in log' {
      assert u in log' <==> u in log || u == url;
    }
  }

  /** A link found in the first `n` URLs is found in any longer prefix of any extension. */
  lemma LinkedBeforeGrow(w: Web, seed: Url, log: seq<Url>, ext: seq<Url>, n: int, m: int, u: Url)
    requires n <= |log| <= |ext| && n <= m <= |ext| && log == ext[..|log|]
    requires LinkedBefore(w, seed, log, n, u)
    ensures LinkedBefore(w, seed, ext, m, u)
  {
    var j :| 0 <= j < n && Fetches(w.site, log[j]) && u in PageLinks(w, w.netloc(seed), log[j]);
    assert ext[j] == log[j];
  }

  lemma ReachedStep(w: Web, seed: Url, toVisit: set<Url>, log: seq<Url>, url: Url)
    requires Reached(w, seed, log) && Pending(w, seed, toVisit, log) && url in toVisit
    ensures Reached(w, seed, log + [url])
  {
    var log' := log + [url];
    assert log == log'[..|log|];
    forall i | 0 < i < |log'| ensures LinkedBefore(w, seed, log', i, log'[i]) {
      if i < |log| {
        LinkedBeforeGrow(w, seed, log, log', i, i, log[i]);
      } else {
        LinkedBeforeGrow(w, seed, log, log', |log|, i, url);
      }
    }
  }

  lemma PendingStep(w: Web, seed: Url, visited: set<Url>, toVisit: set<Url>, log: seq<Url>, url: Url)
    requires Pending(w, seed, toVisit, log) && url in toVisit
    requires log == [] ==> toVisit == {seed}
    ensures Pending(w, seed, NextFrontier(w, seed, visited, toVisit, url), log + [url])
  {
    var log' := log + [url];
    assert log == log'[..|log|];
    forall u | u in NextFrontier(w, seed, visited, toVisit, url)
      ensures LinkedBefore(w, seed, log', |log'|, u)
    {
      if u in toVisit - {url} {
        LinkedBeforeGrow(w, seed, log, log', |log|, |log'|, u);
      } else {
        assert log'[|log|] == url;
      }
    }
  }

  lemma ClosedStep(w: Web, seed: Url, visited: set<Url>, toVisit: set<Url>, log: seq<Url>, url: Url)
    requires Closed(w, seed, visited, toVisit, log) && url in toVisit
    ensures Closed(w, seed, visited + {url}, NextFrontier(w, seed, visited, toVisit, url), log + [url])
  {
    var log' := log + [url];
    forall i, l | 0 <= i < |log'| && Fetches(w.site, log'[i]) && l in PageLinks(w, w.netloc(seed), log'[i])
      ensures l in visited + {url} || l in NextFrontier(w, seed, visited, toVisit, url)
    {
      if i < |log| {
        assert log'[i] == log[i];
      }
    }
  }

  /** One iteration keeps the frontier invariant. */
  lemma FrontierStep(w: Web, seed: Url, visited: set<Url>, toVisit: set<Url>, log: seq<Url>, url: Url)
    requires FrontierInv(w, seed, visited, toVisit, log) && url in toVisit && url !in visited
    ensures FrontierInv(w, seed, visited + {url}, NextFrontier(w, seed, visited, toVisit, url), log + [url])
  {
    BookkeptStep(w, seed, visited, toVisit, log, url);
    ReachedStep(w, seed, toVisit, log, url);
    PendingStep(w, seed, visited, toVisit, log, url);
    ClosedStep(w, seed, visited, toVisit, log, url);
  }

  /** When the frontier is empty the log is a finished crawl. */
  lemma FrontierDone(w: Web, seed: Url, visited: set<Url>, log: seq<Url>)
    requires FrontierInv(w, seed, visited, {}, log)
    ensures CrawlOrder(w, seed, log)
  {
  }

  /** The running totals of the loop: `all_texts`, `total_urls_detected`,
      `total_bandwidth`, `total_images`, `plugins_detected` and
      `social_media_links_detected`. */
  datatype Totals = Totals(
    texts: string,
    urls: set<Url>,
    bandwidth: nat,
    images: nat,
    plugins: Verdict,
    social: set<(string, Url)>)

  /** What the totals are once the URLs of `log` have been visited in order. */
  ghost function TotalsOf(w: Web, domain: string, log: seq<Url>): Totals
    requires WellFormed(w.site)
  {
    Totals(TextOf(w, log), Union(log, LinksPerPage(w, domain)), Total(log, BandwidthPerPage(w)),
           Total(log, ImagesPerPage(w)), PluginsOf(w, log), Union(log, SocialPerPage(w)))
  }

  /** Each running total over `log + [url]` is its value over `log` updated by `url`. */
  lemma TotalAppend(log: seq<Url>, f: Url -> nat, url: Url)
    ensures Total(log + [url], f) == Total(log, f) + f(url)
  {
    assert (log + [url])[..|log|] == log;
  }

  lemma UnionAppend<T(!new)>(log: seq<Url>, f: Url -> set<T>, url: Url)
    ensures Union(log + [url], f) == Union(log, f) + f(url)
    ensures f(url) == {} ==> Union(log + [url], f) == Union(log, f)
  {
    assert (log + [url])[..|log|] == log;
  }

  lemma TextAppend(w: Web, log: seq<Url>, url: Url)
    ensures TextOf(w, log + [url]) == TextOf(w, log) + if Fetches(w.site, url) then " " + w.site[url].text else ""
    ensures !Fetches(w.site, url) ==> TextOf(w, log + [url]) == TextOf(w, log)
  {
    assert (log + [url])[..|log|] == log;
    assert TextOf(w, log) + "" == TextOf(w, log);
  }

  lemma PluginsAppend(w: Web, log: seq<Url>, url: Url)
    ensures PluginsOf(w, log + [url]) ==
      if Truthy(PluginsOf(w, log)) || !Fetches(w.site, url) then PluginsOf(w, log)
      else DetectPlugins(url, Get(w.site, url))
  {
    assert (log + [url])[..|log|] == log;
  }

  /** A URL whose request or `raise_for_status` raises adds nothing to any
      total (it is still visited). */
  lemma FailedPageAddsNothing(w: Web, domain: string, log: seq<Url>, url: Url)
    requires WellFormed(w.site) && !Fetches(w.site, url)
    ensures TotalsOf(w, domain, log + [url]) == TotalsOf(w, domain, log)
  {
    TextAppend(w, log, url);
    UnionAppend(log, LinksPerPage(w, domain), url);
    assert LinksPerPage(w, domain)(url) == {};
    TotalAppend(log, BandwidthPerPage(w), url);
    assert BandwidthPerPage(w)(url) == 0;
    TotalAppend(log, ImagesPerPage(w), url);
    assert ImagesPerPage(w)(url) == 0;
    PluginsAppend(w, log, url);
    UnionAppend(log, SocialPerPage(w), url);
    assert SocialPerPage(w)(url) == {};
  }

  /** A page that fetched adds a space and its text, its same-domain links,
      its Content-Length (or body length), its images and its social links;
      it sets the plugin verdict only while that is still falsy. */
  lemma FetchedPageAdds(w: Web, domain: string, log: seq<Url>, url: Url)
    requires WellFormed(w.site) && Fetches(w.site, url)
    ensures TotalsOf(w, domain, log + [url]).texts == TotalsOf(w, domain, log).texts + (" " + w.site[url].text)
    ensures TotalsOf(w, domain, log + [url]).urls ==
            TotalsOf(w, domain, log).urls + SameDomainLinks(url, w.site[url].anchors, domain, w.resolve, w.netloc)
    ensures TotalsOf(w, domain, log + [url]).bandwidth == TotalsOf(w, domain, log).bandwidth + Bandwidth(w.site[url])
    ensures TotalsOf(w, domain, log + [url]).images == TotalsOf(w, domain, log).images + CountImages(w.site[url])
    ensures TotalsOf(w, domain, log + [url]).plugins ==
            if Truthy(TotalsOf(w, domain, log).plugins) then TotalsOf(w, domain, log).plugins
            else DetectPlugins(url, Get(w.site, url))
    ensures TotalsOf(w, domain, log + [url]).social == TotalsOf(w, domain, log).social + SocialLinks(w.site[url].anchors)
  {
    TextAppend(w, log, url);
    UnionAppend(log, LinksPerPage(w, domain), url);
    TotalAppend(log, BandwidthPerPage(w), url);
    TotalAppend(log, ImagesPerPage(w), url);
    PluginsAppend(w, log, url);
    UnionAppend(log, SocialPerPage(w), url);
  }

  /** The `try` block for a URL popped unvisited: fetch it and, if neither
      the request nor `raise_for_status` raises, fold the page into every
      total; `links` is what `to_visit` is offered (empty on failure). */
  method Visit(w: Web, domain: string, url: Url, totals: Totals, ghost log: seq<Url>)
    returns (totals': Totals, links: set<Url>)
    requires WellFormed(w.site) && totals == TotalsOf(w, domain, log)
    ensures totals' == TotalsOf(w, domain, log + [url])
    ensures links == LinksPerPage(w, domain)(url)
  {
    match Get(w.site, url)
    case None =>
      // RequestException: nothing is added
      FailedPageAddsNothing(w, domain, log, url);
      totals', links := totals, {};
    case Some(response) =>
      if RaisesForStatus(response) {
        // HTTPError: nothing is added
        FailedPageAddsNothing(w, domain, log, url);
        totals', links := totals, {};
      } else {
        totals', links := Absorb(w, domain, url, response, totals, log);
      }
  }

  /** The rest of the `try` block once `raise_for_status` has passed: append
      the text, collect the links and images, add the bandwidth, detect
      plugins while none are known yet, and collect the social links. */
  method Absorb(w: Web, domain: string, url: Url, response: Response, totals: Totals, ghost log: seq<Url>)
    returns (totals': Totals, links: set<Url>)
    requires WellFormed(w.site) && totals == TotalsOf(w, domain, log)
    requires Get(w.site, url) == Some(response) && !RaisesForStatus(response)
    ensures totals' == TotalsOf(w, domain, log + [url])
    ensures links == LinksPerPage(w, domain)(url)
  {
    assert response == w.site[url] && Fetches(w.site, url);
    FetchedPageAdds(w, domain, log, url);
    var texts := totals.texts + (" " + response.text);
    links := SameDomainLinks(url, response.anchors, domain, w.resolve, w.netloc);
    var images := totals.images + CountImages(response);
    var bandwidth := totals.bandwidth;
    if "content-length" in response.headers {
      bandwidth := bandwidth + DecimalValue(response.headers["content-length"]);
    } else {
      bandwidth := bandwidth + response.bodyLength;
    }
    assert bandwidth == totals.bandwidth + Bandwidth(response);
    var plugins := totals.plugins;
    if !Truthy(plugins) {
      plugins := DetectPlugins(url, Get(w.site, url));
    }
    var social := totals.social + SocialLinks(response.anchors);
    ghost var after := TotalsOf(w, domain, log + [url]);
    assert after.texts == texts && after.urls == totals.urls + links;
    assert after.bandwidth == bandwidth && after.images == images;
    assert after.plugins == plugins && after.social == social;
    totals' := Totals(texts, totals.urls + links, bandwidth, images, plugins, social);
  }

  /** `NextFrontier` is what the loop computes: pop, then add the links
      offered by the visit that are not yet visited. */
  lemma NextFrontierIs(w: Web, seed: Url, visited: set<Url>, toVisit: set<Url>, url: Url)
    requires url in toVisit
    ensures NextFrontier(w, seed, visited, toVisit, url) ==
            (toVisit - {url}) + (LinksPerPage(w, w.netloc(seed))(url) - (visited + {url}))
  {
  }

  /** The frontier and the visited set stay disjoint: the popped URL joins
      `visited`, and only links not yet visited join `to_visit`. */
  lemma DisjointStep(visited: set<Url>, toVisit: set<Url>, url: Url, links: set<Url>)
    requires visited !! toVisit && url in toVisit
    ensures url !in visited
    ensures (visited + {url}) !! (toVisit - {url}) + (links - (visited + {url}))
  {
  }

  /** Visiting a new URL of the universe leaves fewer of it unvisited. */
  lemma VisitShrinks(universe: set<Url>, visited: set<Url>, url: Url)
    requires url in universe && url !in visited
    ensures |universe - (visited + {url})| < |universe - visited|
  {
    assert universe - (visited + {url}) == (universe - visited) - {url};
  }

  /** The loop of `main(start_url)`: crawl from the seed until the frontier
      is empty. The ghost `log` lists the URLs in the order they were popped
      and visited; every total is the function of that log. */
  method CrawlSite(w: Web, seed: Url) returns (totals: Totals, ghost log: seq<Url>)
    requires WellFormed(w.site)
    ensures CrawlOrder(w, seed, log)
    ensures totals == TotalsOf(w, w.netloc(seed), log)
  {
    var domain := w.netloc(seed);
    var visited: set<Url> := {};
    var toVisit: set<Url> := {seed};
    totals := Totals("", {}, 0, 0, Found({}), {});
    ghost var universe := Universe(w, seed);
    log := [];

    while toVisit != {}
      invariant FrontierInv(w, seed, visited, toVisit, log)
      invariant totals == TotalsOf(w, domain, log)
      invariant visited !! toVisit
      decreases |universe - visited|, |toVisit|
    {
      var url :| url in toVisit;
      if url !in visited {
        FrontierStep(w, seed, visited, toVisit, log, url);
        VisitShrinks(universe, visited, url);
        NextFrontierIs(w, seed, visited, toVisit, url);
        DisjointStep(visited, toVisit, url, LinksPerPage(w, domain)(url));
        toVisit := toVisit - {url};
        visited := visited + {url};
        var links;
        totals, links := Visit(w, domain, url, totals, log);
        toVisit := toVisit + (links - visited);
        log := log + [url];
      } else {
        // the frontier never holds a visited URL, so the guard always holds
        assert false;
      }
    }
    FrontierDone(w, seed, visited, log);
  }

  /** `main(start_url)`: crawl from the seed, then rank the keywords of the
      collected text when there is any. */
  method Summarize(w: Web, seed: Url, tokenize: string -> seq<string>, stop: set<string>)
    returns (report: Report, ghost log: seq<Url>)
    requires WellFormed(w.site)
    ensures CrawlOrder(w, seed, log)
    ensures report.urlsDetected == Union(log, LinksPerPage(w, w.netloc(seed)))
    ensures report.bandwidth == Total(log, BandwidthPerPage(w))
    ensures report.images == Total(log, ImagesPerPage(w))
    ensures report.plugins == PluginsOf(w, log)
    ensures report.social == Union(log, SocialPerPage(w))
    ensures report.keywords.None? <==> NoneFetched(w.site, log)
    ensures report.keywords.Some? ==> report.keywords.value == AnalyzeKeywords(TextOf(w, log), tokenize, stop)
  {
    var totals;
    totals, log := CrawlSite(w, seed);
    var keywords := None;
    if totals.texts != "" {
      keywords := Some(AnalyzeKeywords(totals.texts, tokenize, stop));
    }
    report := Report(totals.urls, totals.bandwidth, totals.images, totals.plugins, totals.social, keywords);
  }
}
