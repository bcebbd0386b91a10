/**
 * What follows from the shape of a finished crawl: it never leaves the seed's
 * domain, the order in which the frontier is popped does not change which
 * pages are visited nor the set- and sum-valued totals, and every total only
 * grows as the crawl goes on.
 */
module CrawlFacts {
  import opened Page
  import opened Plugins
  import opened CrawlSpec

  /** Every URL after the seed has the seed's netloc: only kept links are
      ever queued. */
  lemma StaysInDomain(w: Web, seed: Url, log: seq<Url>, i: int)
    requires CrawlOrder(w, seed, log) && 0 < i < |log|
    ensures w.netloc(log[i]) == w.netloc(seed)
  {
    assert LinkedBefore(w, seed, log, i, log[i]);
    var j :| 0 <= j < i && Fetches(w.site, log[j]) && log[i] in PageLinks(w, w.netloc(seed), log[j]);
  }

  /** A seed whose fetch fails, or whose page has no same-domain link, is the
      only URL the crawl visits. */
  lemma LoneSeed(w: Web, seed: Url, log: seq<Url>)
    requires CrawlOrder(w, seed, log)
    requires !Fetches(w.site, seed) || PageLinks(w, w.netloc(seed), seed) == {}
    ensures log == [seed]
  {
    if |log| > 1 {
      SeedLinksNothing(w, seed, log, log[1]);
      assert false;
    }
  }

  lemma SeedLinksNothing(w: Web, seed: Url, log: seq<Url>, u: Url)
    requires |log| > 1 && log[0] == seed
    requires !Fetches(w.site, seed) || PageLinks(w, w.netloc(seed), seed) == {}
    ensures !LinkedBefore(w, seed, log, 1, u)
  {
  }

  /** The seed's page, when it fetches, is the one `detect_plugins` runs on. */
  lemma PluginsOnSeed(w: Web, seed: Url, log: seq<Url>)
    requires CrawlOrder(w, seed, log) && Fetches(w.site, seed)
    ensures PluginsOf(w, log) == DetectPlugins(seed, Get(w.site, seed))
  {
    var f := FirstFetched(w.site, log);
    assert !NoneFetched(w.site, log) by { assert Fetches(w.site, log[0]); }
    var i :| 0 <= i < |log| && log[i] == f.value && Fetches(w.site, log[i]) &&
             (forall j :: 0 <= j < i ==> !Fetches(w.site, log[j]));
    assert i == 0 by {
      if i > 0 { assert false; }
    }
  }

  /** `total_urls_detected` takes every kept link of every fetched page,
      whether that link was visited before or not: the detected URLs are all
      visited, every visited URL after the seed is detected, and the seed is
      detected exactly when some fetched page links back to it. */
  lemma DetectedAreVisited(w: Web, seed: Url, log: seq<Url>)
    requires CrawlOrder(w, seed, log)
    ensures forall i, l :: 0 <= i < |log| && Fetches(w.site, log[i]) && l in PageLinks(w, w.netloc(seed), log[i]) ==>
      l in Union(log, LinksPerPage(w, w.netloc(seed)))
    ensures forall u :: u in Union(log, LinksPerPage(w, w.netloc(seed))) ==> u in log
    ensures forall i :: 0 < i < |log| ==> log[i] in Union(log, LinksPerPage(w, w.netloc(seed)))
    ensures seed in Union(log, LinksPerPage(w, w.netloc(seed))) <==>
      exists i :: 0 <= i < |log| && Fetches(w.site, log[i]) && seed in PageLinks(w, w.netloc(seed), log[i])
  {
    LinksDetected(w, w.netloc(seed), log);
    DetectedInLog(w, seed, log);
    VisitedDetected(w, seed, log);
    SeedDetected(w, seed, log);
  }

  lemma LinksDetected(w: Web, domain: string, log: seq<Url>)
    ensures forall i, l :: 0 <= i < |log| && Fetches(w.site, log[i]) && l in PageLinks(w, domain, log[i]) ==>
      l in Union(log, LinksPerPage(w, domain))
  {
    forall i, l | 0 <= i < |log| && Fetches(w.site, log[i]) && l in PageLinks(w, domain, log[i])
      ensures l in Union(log, LinksPerPage(w, domain))
    {
      assert l in LinksPerPage(w, domain)(log[i]);
    }
  }

  lemma DetectedInLog(w: Web, seed: Url, log: seq<Url>)
    requires CrawlOrder(w, seed, log)
    ensures forall u :: u in Union(log, LinksPerPage(w, w.netloc(seed))) ==> u in log
  {
    var f := LinksPerPage(w, w.netloc(seed));
    forall u | u in Union(log, f) ensures u in log {
      var i :| 0 <= i < |log| && u in f(log[i]);
    }
  }

  lemma VisitedDetected(w: Web, seed: Url, log: seq<Url>)
    requires CrawlOrder(w, seed, log)
    ensures forall i :: 0 < i < |log| ==> log[i] in Union(log, LinksPerPage(w, w.netloc(seed)))
  {
    var f := LinksPerPage(w, w.netloc(seed));
    forall i | 0 < i < |log| ensures log[i] in Union(log, f) {
      assert LinkedBefore(w, seed, log, i, log[i]);
      var j :| 0 <= j < i && Fetches(w.site, log[j]) && log[i] in PageLinks(w, w.netloc(seed), log[j]);
      assert log[i] in f(log[j]);
    }
  }

  lemma SeedDetected(w: Web, seed: Url, log: seq<Url>)
    ensures seed in Union(log, LinksPerPage(w, w.netloc(seed))) <==>
      exists i :: 0 <= i < |log| && Fetches(w.site, log[i]) && seed in PageLinks(w, w.netloc(seed), log[i])
  {
    var f := LinksPerPage(w, w.netloc(seed));
    if seed in Union(log, f) {
      var i :| 0 <= i < |log| && seed in f(log[i]);
      assert Fetches(w.site, log[i]) && seed in PageLinks(w, w.netloc(seed), log[i]);
    }
  }

  /** Whatever order the frontier is popped in, two finished crawls from the
      same seed visit the same URLs. */
  lemma SameVisited(w: Web, seed: Url, log1: seq<Url>, log2: seq<Url>)
    requires CrawlOrder(w, seed, log1) && CrawlOrder(w, seed, log2)
    ensures forall u :: u in log1 <==> u in log2
  {
    forall i | 0 <= i < |log1| ensures log1[i] in log2 {
      VisitedInOther(w, seed, log1, log2, i);
    }
    forall i | 0 <= i < |log2| ensures log2[i] in log1 {
      VisitedInOther(w, seed, log2, log1, i);
    }
  }

  lemma {:induction false} VisitedInOther(w: Web, seed: Url, log1: seq<Url>, log2: seq<Url>, i: int)
    requires CrawlOrder(w, seed, log1) && CrawlOrder(w, seed, log2) && 0 <= i < |log1|
    ensures log1[i] in log2
    decreases i
  {
    if i == 0 {
      assert log2[0] == seed;
    } else {
      assert LinkedBefore(w, seed, log1, i, log1[i]);
      var j :| 0 <= j < i && Fetches(w.site, log1[j]) && log1[i] in PageLinks(w, w.netloc(seed), log1[j]);
      VisitedInOther(w, seed, log1, log2, j);
      var k :| 0 <= k < |log2| && log2[k] == log1[j];
      assert Fetches(w.site, log2[k]) && log1[i] in PageLinks(w, w.netloc(seed), log2[k]);
    }
  }

  /** A union over the log depends only on which URLs the log holds. */
  lemma UnionOfSameUrls<T(!new)>(log1: seq<Url>, log2: seq<Url>, f: Url -> set<T>)
    requires forall u :: u in log1 <==> u in log2
    ensures Union(log1, f) == Union(log2, f)
  {
    forall x | x in Union(log1, f) ensures x in Union(log2, f) {
      var i :| 0 <= i < |log1| && x in f(log1[i]);
      assert log1[i] in log1;
      var k :| 0 <= k < |log2| && log2[k] == log1[i];
    }
    forall x | x in Union(log2, f) ensures x in Union(log1, f) {
      var i :| 0 <= i < |log2| && x in f(log2[i]);
      assert log2[i] in log2;
      var k :| 0 <= k < |log1| && log1[k] == log2[i];
    }
  }

  /** A sum over the log splits at any point. */
  lemma {:induction false} TotalConcat(a: seq<Url>, b: seq<Url>, f: Url -> nat)
    ensures Total(a + b, f) == Total(a, f) + Total(b, f)
    decreases |b|
  {
    if b == [] {
      assert a + b == a;
    } else {
      var b' := b[..|b| - 1];
      TotalConcat(a, b', f);
      assert (a + b)[..|a + b| - 1] == a + b';
    }
  }

  /** A sum over the log does not depend on the order of its URLs. */
  lemma {:induction false} TotalOfPermutation(a: seq<Url>, b: seq<Url>, f: Url -> nat)
    requires multiset(a) == multiset(b)
    ensures Total(a, f) == Total(b, f)
    decreases |a|
  {
    if a != [] {
      var x := a[|a| - 1];
      var a' := a[..|a| - 1];
      assert a == a' + [x];
      assert x in multiset(b);
      var k :| 0 <= k < |b| && b[k] == x;
      var b' := b[..k] + b[k + 1..];
      assert b == b[..k] + [x] + b[k + 1..];
      assert multiset(a) == multiset(a') + multiset{x};
      assert multiset(b) == multiset(b[..k]) + multiset{x} + multiset(b[k + 1..]);
      assert multiset(b') == multiset(b[..k]) + multiset(b[k + 1..]);
      assert multiset(a') == multiset(a) - multiset{x};
      assert multiset(b') == multiset(b) - multiset{x};
      TotalOfPermutation(a', b', f);
      TotalConcat(b[..k] + [x], b[k + 1..], f);
      TotalConcat(b[..k], [x], f);
      TotalConcat(b[..k], b[k + 1..], f);
      assert [x][..0] == [];
    }
  }

  /** In a duplicate-free log every URL occurs once or not at all. */
  lemma {:induction false} DistinctCount(a: seq<Url>, u: Url)
    requires forall i, j :: 0 <= i < j < |a| ==> a[i] != a[j]
    ensures multiset(a)[u] == if u in a then 1 else 0
    decreases |a|
  {
    if a != [] {
      var x := a[|a| - 1];
      var a' := a[..|a| - 1];
      assert a == a' + [x];
      DistinctCount(a', u);
      assert u == x ==> u !in a';
    }
  }

  /** Two duplicate-free logs with the same URLs are permutations of each other. */
  lemma DistinctSameUrls(a: seq<Url>, b: seq<Url>)
    requires forall i, j :: 0 <= i < j < |a| ==> a[i] != a[j]
    requires forall i, j :: 0 <= i < j < |b| ==> b[i] != b[j]
    requires forall u :: u in a <==> u in b
    ensures multiset(a) == multiset(b)
  {
    forall u ensures multiset(a)[u] == multiset(b)[u] {
      DistinctCount(a, u);
      DistinctCount(b, u);
    }
  }

  /** The pop order of the frontier does not change the detected URLs, the
      social links, the bandwidth, the image count or the plugin verdict of a
      crawl; only the text and its keywords can differ. The verdict is fixed
      because the seed is always popped first: it either fetches and is the
      page the plugins are detected on, or fails and is the only URL visited. */
  lemma OrderFree(w: Web, seed: Url, log1: seq<Url>, log2: seq<Url>)
    requires WellFormed(w.site)
    requires CrawlOrder(w, seed, log1) && CrawlOrder(w, seed, log2)
    ensures Union(log1, LinksPerPage(w, w.netloc(seed))) == Union(log2, LinksPerPage(w, w.netloc(seed)))
    ensures Union(log1, SocialPerPage(w)) == Union(log2, SocialPerPage(w))
    ensures Total(log1, BandwidthPerPage(w)) == Total(log2, BandwidthPerPage(w))
    ensures Total(log1, ImagesPerPage(w)) == Total(log2, ImagesPerPage(w))
    ensures PluginsOf(w, log1) == PluginsOf(w, log2)
  {
    if Fetches(w.site, seed) {
      PluginsOnSeed(w, seed, log1);
      PluginsOnSeed(w, seed, log2);
    } else {
      LoneSeed(w, seed, log1);
      LoneSeed(w, seed, log2);
    }
    SameVisited(w, seed, log1, log2);
    UnionOfSameUrls(log1, log2, LinksPerPage(w, w.netloc(seed)));
    UnionOfSameUrls(log1, log2, SocialPerPage(w));
    DistinctSameUrls(log1, log2);
    TotalOfPermutation(log1, log2, BandwidthPerPage(w));
    TotalOfPermutation(log1, log2, ImagesPerPage(w));
  }

  /** A sum over a log is at most the sum over any extension of it. */
  lemma TotalGrows(log: seq<Url>, ext: seq<Url>, f: Url -> nat)
    requires |log| <= |ext| && log == ext[..|log|]
    ensures Total(log, f) <= Total(ext, f)
  {
    assert ext == log + ext[|log|..];
    TotalConcat(log, ext[|log|..], f);
  }

  /** A union over a log is contained in the union over any extension of it. */
  lemma UnionGrows<T(!new)>(log: seq<Url>, ext: seq<Url>, f: Url -> set<T>)
    requires |log| <= |ext| && log == ext[..|log|]
    ensures Union(log, f) <= Union(ext, f)
  {
    forall x | x in Union(log, f) ensures x in Union(ext, f) {
      var i :| 0 <= i < |log| && x in f(log[i]);
      assert ext[i] == log[i];
    }
  }

  /** The text of a log is a prefix of the text of any extension of it. */
  lemma {:induction false} TextGrows(w: Web, log: seq<Url>, ext: seq<Url>)
    requires |log| <= |ext| && log == ext[..|log|]
    ensures TextOf(w, log) <= TextOf(w, ext)
    decreases |ext|
  {
    if |log| < |ext| {
      var init := ext[..|ext| - 1];
      assert log == init[..|log|];
      TextGrows(w, log, init);
    } else {
      assert log == ext;
    }
  }

  /** Once a page has fetched, the first fetched page of any extension is the same. */
  lemma {:induction false} FirstFetchedStays(site: Site, log: seq<Url>, ext: seq<Url>)
    requires |log| <= |ext| && log == ext[..|log|]
    requires FirstFetched(site, log).Some?
    ensures FirstFetched(site, ext) == FirstFetched(site, log)
    decreases |ext|
  {
    if |log| < |ext| {
      var init := ext[..|ext| - 1];
      assert log == init[..|log|];
      FirstFetchedStays(site, log, init);
    } else {
      assert log == ext;
    }
  }

  /** As the log grows, every total only grows: the sums do not decrease, the
      sets only gain members, the text is only appended to, and a truthy
      plugin verdict is never replaced. */
  lemma Monotone(w: Web, domain: string, log: seq<Url>, ext: seq<Url>)
    requires WellFormed(w.site)
    requires |log| <= |ext| && log == ext[..|log|]
    ensures Total(log, BandwidthPerPage(w)) <= Total(ext, BandwidthPerPage(w))
    ensures Total(log, ImagesPerPage(w)) <= Total(ext, ImagesPerPage(w))
    ensures Union(log, LinksPerPage(w, domain)) <= Union(ext, LinksPerPage(w, domain))
    ensures Union(log, SocialPerPage(w)) <= Union(ext, SocialPerPage(w))
    ensures TextOf(w, log) <= TextOf(w, ext)
    ensures Truthy(PluginsOf(w, log)) ==> PluginsOf(w, ext) == PluginsOf(w, log)
  {
    TotalGrows(log, ext, BandwidthPerPage(w));
    TotalGrows(log, ext, ImagesPerPage(w));
    UnionGrows(log, ext, LinksPerPage(w, domain));
    UnionGrows(log, ext, SocialPerPage(w));
    TextGrows(w, log, ext);
    if Truthy(PluginsOf(w, log)) {
      FirstFetchedStays(w.site, log, ext);
    }
  }
}
