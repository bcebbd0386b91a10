/**
 * `detect_plugins`: a fixed catalog of client- and server-side technologies,
 * matched against script sources and link targets, with extra PHP hints from
 * comments, the Server header and the URL.
 */
module Plugins {
  import opened Wrappers
  import opened Text
  import opened Patterns
  import opened Page

  /** The catalog, in the source's order. `cdn.shopify.com` keeps its dots
      unescaped, so each of them matches any character but a newline. */
  const Catalog: seq<Rule> := [
    Rule("jQuery", ThenJs("jquery")),
    Rule("Bootstrap", ThenJs("bootstrap")),
    Rule("React", ThenJs("react")),
    Rule("Vue", ThenJs("vue")),
    Rule("Angular", ThenJs("angular")),
    Rule("Ember", ThenJs("ember")),
    Rule("Backbone", ThenJs("backbone")),
    Rule("WordPress", Literal("/wp-content/")),
    Rule("Drupal", Literal("/sites/default/")),
    Rule("Joomla", Literal("/components/com_")),
    Rule("Magento", Literal("/static/frontend/")),
    Rule("Shopify", Wildcard("cdn.shopify.com")),
    Rule("Squarespace", ThenJs("squarespace")),
    Rule("Wix", ThenJs("wix")),
    Rule("Google Analytics", Literal("google-analytics.com/ga.js")),
    Rule("Google Tag Manager", Literal("googletagmanager.com/gtm.js")),
    Rule("jQuery UI", ThenJs("jquery-ui")),
    Rule("Moment.js", ThenJs("moment")),
    Rule("D3.js", ThenJs("d3")),
    Rule("Three.js", ThenJs("three")),
    Rule("Chart.js", ThenJs("chart")),
    Rule("Lodash", ThenJs("lodash")),
    Rule("Underscore.js", ThenJs("underscore")),
    Rule("Handlebars.js", ThenJs("handlebars")),
    Rule("TypeScript", ThenJs("typescript")),
    Rule("Babel", ThenJs("babel")),
    Rule("Webpack", ThenJs("webpack")),
    Rule("Grunt", ThenJs("grunt")),
    Rule("Gulp", ThenJs("gulp")),
    Rule("Flask", ThenJs("flask")),
    Rule("Django", ThenJs("django")),
    Rule("Ruby on Rails", ThenJs("rails")),
    Rule("ASP.NET", ThenJs("aspnet")),
    Rule("Spring", ThenJs("spring")),
    Rule("Laravel", ThenJs("laravel")),
    Rule("Symfony", ThenJs("symfony")),
    Rule("CodeIgniter", ThenJs("codeigniter")),
    Rule("CakePHP", ThenJs("cakephp")),
    Rule("PHP", Literal(".php"))
  ]

  /** What `detect_plugins` returns, and what `plugins_detected` holds in the
      crawl. Each message variant stands for the source's non-empty message. */
  datatype Verdict =
    | Found(names: set<string>)           // a set; the crawl starts from `set()`, Found({})
    | NoneFound                           // "No common plugins detected. ..."
    | AccessFailed(url: Url, status: int) // "Failed to access {url}. Status code: {status}"
    | DetectionFailed(url: Url)           // "Error detecting plugins on {url}: {e}"

  /** Python truthiness of the value: a set is true when non-empty, and every
      message is a non-empty string. */
  predicate Truthy(v: Verdict) {
    !(v.Found? && v.names == {})
  }

  /** `'php' in text.lower()` */
  predicate MentionsPhp(text: string) {
    Contains(Lower(text), "php")
  }

  /** The server-side hints that report PHP on their own: a comment or the
      Server header mentioning php, or `.php` in the requested URL. */
  predicate PhpHinted(url: Url, r: Response) {
    || (exists i | 0 <= i < |r.comments| :: MentionsPhp(r.comments[i]))
    || MentionsPhp(HeaderOr(r, "server", ""))
    || Search(Literal(".php"), url)
  }

  /** Some catalog rule named `name` matches `s`. */
  ghost predicate Fires(name: string, s: string) {
    exists k :: 0 <= k < |Catalog| && Catalog[k].name == name && Search(Catalog[k].pattern, s)
  }

  /** The names collected from the scripts, the links and the PHP hints. */
  function DetectedNames(url: Url, r: Response): set<string> {
    HitsIn(Catalog, r.scripts) + HitsIn(Catalog, r.linkHrefs) + if PhpHinted(url, r) then {"PHP"} else {}
  }

  /** `detect_plugins(url, session)` on the outcome of its request: None when
      the request raised. It never returns an empty set, so its result is
      always truthy. */
  function DetectPlugins(url: Url, got: Option<Response>): (v: Verdict)
    ensures Truthy(v)
    ensures got.None? ==> v == DetectionFailed(url)
    ensures got.Some? && got.value.status != 200 ==> v == AccessFailed(url, got.value.status)
  {
    match got
    case None => DetectionFailed(url)
    case Some(r) =>
      if r.status == 200 then
        var names := DetectedNames(url, r);
        if names != {} then Found(names) else NoneFound
      else AccessFailed(url, r.status)
  }

  /** On a 200 response a name is reported exactly when some rule of that
      name matches a script source or a link target, or it is PHP and a PHP
      hint is present; when nothing is reported the verdict is NoneFound. */
  lemma DetectedExactly(url: Url, r: Response, name: string)
    requires r.status == 200
    ensures DetectPlugins(url, Some(r)).Found? || DetectPlugins(url, Some(r)) == NoneFound
    ensures (DetectPlugins(url, Some(r)).Found? && name in DetectPlugins(url, Some(r)).names) <==>
      || (exists i :: 0 <= i < |r.scripts| && Fires(name, r.scripts[i]))
      || (exists i :: 0 <= i < |r.linkHrefs| && Fires(name, r.linkHrefs[i]))
      || (name == "PHP" && PhpHinted(url, r))
  {
    var names := DetectedNames(url, r);
    var v := DetectPlugins(url, Some(r));
    assert v == if names != {} then Found(names) else NoneFound;
    assert (v.Found? && name in v.names) <==> name in names;
    NamesExactly(url, r, name);
  }

  /** The collected names are the names of the rules that fire on a script
      source or a link target, plus PHP when a PHP hint is present. */
  lemma NamesExactly(url: Url, r: Response, name: string)
    ensures name in DetectedNames(url, r) <==>
      || (exists i :: 0 <= i < |r.scripts| && Fires(name, r.scripts[i]))
      || (exists i :: 0 <= i < |r.linkHrefs| && Fires(name, r.linkHrefs[i]))
      || (name == "PHP" && PhpHinted(url, r))
  {
    HitsInFires(r.scripts, name);
    HitsInFires(r.linkHrefs, name);
  }

  lemma HitsInFires(subjects: seq<string>, name: string)
    ensures name in HitsIn(Catalog, subjects) <==> exists i :: 0 <= i < |subjects| && Fires(name, subjects[i])
  {
    forall i | 0 <= i < |subjects| ensures name in Hits(Catalog, subjects[i]) <==> Fires(name, subjects[i]) {
    }
  }

  /** A 200 page loading `/static/jQuery-3.6.0.min.js` is reported as using jQuery. */
  lemma JQueryDetected(url: Url, r: Response)
    requires r.status == 200 && r.scripts == ["/static/jQuery-3.6.0.min.js"]
    ensures DetectPlugins(url, Some(r)).Found? && "jQuery" in DetectPlugins(url, Some(r)).names
  {
    ThenJsExample();
    assert Catalog[0] == Rule("jQuery", ThenJs("jquery"));
    assert Fires("jQuery", r.scripts[0]);
    DetectedExactly(url, r, "jQuery");
  }

  /** The PHP hints, spelled as the source tests them: a comment or the
      Server header containing `php`, or the URL containing `.php`, each
      ignoring case. The `\.php` search on the URL is a plain substring test. */
  lemma PhpHintedExactly(url: Url, r: Response)
    ensures PhpHinted(url, r) <==>
      || (exists i :: 0 <= i < |r.comments| && Contains(Lower(r.comments[i]), "php"))
      || Contains(Lower(HeaderOr(r, "server", "")), "php")
      || Contains(Lower(url), ".php")
  {
    EscapedSearch(".php", url);
    assert Lower(".php") == ".php";
  }

  /** The catalog has the source's 39 rules. Only Shopify's pattern leaves
      its dots unescaped, and PHP's pattern is the literal `.php`. */
  lemma CatalogShape()
    ensures |Catalog| == 39
    ensures forall k :: 0 <= k < |Catalog| ==> (Catalog[k].pattern.Wildcard? <==> Catalog[k].name == "Shopify")
    ensures Catalog[38] == Rule("PHP", Literal(".php"))
  {
  }
}
