# web_summary.py, modelled in Dafny

`web_summary.py` crawls one web site from a seed URL. It follows only links whose host (`netloc`) is the seed's host, and each URL is visited at most once. For every page that fetches, it adds to a set of running totals:

- the page text;
- the same-domain links it found;
- the number of images;
- the bytes transferred;
- the social-media links it found;
- once per run, the plugins and libraries the page uses.

At the end it ranks the ten most common keywords of the collected text.

This project models that crawl and the per-page analyses it applies, and proves what they promise. HTTP and HTML parsing are replaced by a *site snapshot*:

- The snapshot is a `map` from URL to one `Response` record. The record holds the status, the lower-cased headers, the body length, the `<a>`, `<script>` and `<link>` targets, the comments, the `<img>` count, the style attributes and the stripped text.
- A URL absent from the map is one whose request raises.
- `raise_for_status` raises for statuses 400 to 599.
- `urljoin` and `urlparse(...).netloc` are given as functions (`Web.resolve`, `Web.netloc`).

The modules follow the program's structure:

- **Crawl** (`crawl.dfy`): `main` as imperative code.
  - `CrawlSite` is the `while to_visit` loop over the `visited` and `to_visit` sets.
  - `Visit` is the `try` block, with its two `except` clauses.
  - `Absorb` holds the accumulator updates that follow a successful `raise_for_status`.
  - `Summarize` runs the crawl, then the keyword step.
  - Each method is proved against the specification functions of **CrawlSpec**.
- **CrawlSpec** (`crawl_spec.dfy`): every accumulator as a function of the *fetch log*, the order in which URLs were popped and visited. It also defines `CrawlOrder`, the shape every finished crawl's log has.
- **CrawlFacts** (`crawl_facts.dfy`): consequences of `CrawlOrder`.
  - The crawl stays in the seed's domain.
  - The pop order changes neither the visited URLs, the set- and sum-valued totals nor the plugin verdict.
  - Every total only grows.
- **Links**, **Images**, **Plugins**, **Social** and **Keywords**: `get_all_links`, `count_images`, `detect_plugins`, `detect_social_media_links` and `analyze_keywords`.
- **Patterns**: the two regular-expression shapes their catalogs use. The first is a fixed run with each `.` either escaped or a wildcard. The second is `name.*\.js`. Both are case-insensitive.
- **Text**, **Page** and **Wrappers**: ASCII case folding, substring search and decimal parsing; the response record, the snapshot and the fetch outcome; `Option`.

The crawl treats a page as failed exactly when `raise_for_status` raises, that is for statuses 400 to 599 (web_summary.py:234). A page with a 1xx or 3xx status is therefore analysed like a 2xx page. `detect_plugins` separately insists on exactly 200 (web_summary.py:118).

## Model

| member | source | states |
|---|---|---|
| Crawl.Summarize | web_summary.py:216-276 | After the crawl, the report's detected URLs, bandwidth, images, plugins and social links are the spec totals of a log with the `CrawlOrder` shape. Keywords are computed exactly when some page fetched, and are then `analyze_keywords` of the collected text. |
| Crawl.CrawlSite | web_summary.py:216-269 | The loop ends. Its log starts at the seed and holds no URL twice. Every later URL is a same-domain link of a page fetched before it, and every link of a fetched page is visited. The totals equal their spec functions of that log. |
| Crawl.Visit | web_summary.py:232-269 | One visit turns the totals for `log` into the totals for `log + [url]`. The links offered to the frontier are the page's same-domain links, or none when the request or `raise_for_status` raises. |
| Crawl.Absorb | web_summary.py:235-264 | On a fetched page, each accumulator is updated as the source does: text appended after a space, links united, images and bandwidth added, plugins detected only while falsy, social links united. The result equals the spec totals of the extended log. |
| Crawl.FailedPageAddsNothing | web_summary.py:266-269 | A URL whose request or status check raises leaves every total unchanged. |
| Crawl.FetchedPageAdds | web_summary.py:235-264 | Extending the log with a fetched URL adds exactly that page's text, links, bandwidth, images and social links. The plugin verdict changes only when it was still falsy. |
| Crawl.FrontierStep | web_summary.py:227-239 | Popping an unvisited URL, marking it visited and queuing its links minus `visited` keeps the frontier invariant. The invariant covers bookkeeping, reachability from the seed, pending URLs being found links, and closure. |
| Crawl.FrontierDone | web_summary.py:227-227 | With an empty frontier, the invariant gives the `CrawlOrder` shape of the log. |
| Crawl.DisjointStep | web_summary.py:228-239 | `visited` and `to_visit` stay disjoint across an iteration, and the popped URL is never already visited. |
| Crawl.VisitShrinks | web_summary.py:229-230 | Marking a new URL visited shrinks the unvisited part of the finite URL universe, so the loop terminates. |
| CrawlSpec.TextOf | web_summary.py:235-235 | `all_texts` is empty exactly when no URL of the log fetched. |
| CrawlSpec.FirstFetched | web_summary.py:251-253 | The first fetched URL of the log: every URL before it failed, and it is absent exactly when none fetched. |
| CrawlSpec.PluginsOf | web_summary.py:251-253 | `plugins_detected` is falsy exactly when no page fetched. |
| CrawlSpec.Union | web_summary.py:240-240 | A value is in the union over the log iff some URL of the log contributes it. |
| CrawlSpec.LinksInUniverse | web_summary.py:58-64 | Every kept link of a page lies in the finite universe of resolved anchors. |
| CrawlFacts.StaysInDomain | web_summary.py:216-239 | Every visited URL after the seed has the seed's `netloc`. |
| CrawlFacts.LoneSeed | web_summary.py:218-239 | A seed that fails, or has no same-domain link, is the only URL visited. |
| CrawlFacts.PluginsOnSeed | web_summary.py:251-253 | When the seed fetches, `detect_plugins` runs on the seed, and its verdict is final. |
| CrawlFacts.DetectedAreVisited | web_summary.py:239-240 | Every kept link of every fetched page is detected, whether it was visited before or not. Every detected URL is visited, and every visited URL after the seed is detected. The seed is detected exactly when some fetched page links back to it. |
| CrawlFacts.SameVisited | web_summary.py:228-228 | Two finished crawls from the same seed, in whatever pop order, visit the same URLs. |
| CrawlFacts.OrderFree | web_summary.py:228-264 | The pop order does not change the detected URLs, the social links, the bandwidth, the image count or the plugin verdict. Only the text and its keywords can differ. |
| CrawlFacts.TotalOfPermutation | web_summary.py:243-249 | A sum over the log is independent of the log's order. |
| CrawlFacts.Monotone | web_summary.py:235-264 | As the log grows, the sums do not decrease, the sets only grow, the text is only appended to, and a truthy plugin verdict is never replaced. |
| Links.SameDomainLinks | web_summary.py:57-65 | A URL is returned iff it is `urljoin(url, href)` for some anchor and its `netloc` equals the domain. |
| Images.BackgroundImages | web_summary.py:96-97 | The count of style values containing `background-image` (case-sensitive). It is 0 iff none contains it, and `len(styles)` iff all do. |
| Images.BackgroundImagesAppend | web_summary.py:97-97 | The count is additive over concatenated style lists. |
| Images.CountImages | web_summary.py:94-98 | The image count is the `<img>` count plus the background images. It is bounded by both, and equals the `<img>` count iff no style sets a background image. |
| Page.Bandwidth | web_summary.py:246-249 | A page adds its Content-Length header's value when the header is present, which is below `10^k` for `k` digits whatever the body length. It adds the body length when the header is absent. |
| Page.BandwidthPrefersHeader | web_summary.py:246-249 | A numeric Content-Length header of 1024 wins over a 500-byte body. |
| Text.DecimalValueConcat | web_summary.py:247-247 | `int()` of a digit run follows positional notation: the value of `a + b` is the value of `a` times `10^len(b)`, plus the value of `b`. |
| Text.DecimalValueBound | web_summary.py:247-247 | `k` digits denote a value below `10^k`. |
| CrawlSpec.TextUnchangedIffFails | web_summary.py:232-235 | A visit leaves `all_texts` unchanged exactly when its request raises or its status is 400 to 599, that is a 4xx or 5xx class. Any other status, 1xx and 3xx included, appends the page text. |
| Plugins.DetectPlugins | web_summary.py:115-199 | The result is always truthy, never an empty set. A failed request gives the error verdict, and any status other than 200 gives the access-failure verdict. |
| Plugins.DetectedExactly | web_summary.py:164-195 | On a 200 page the verdict is a set or "none detected". A name is reported iff some catalog rule of that name matches a script `src` or link `href`, or it is PHP and a PHP hint is present. |
| Plugins.NamesExactly | web_summary.py:166-193 | The collected names are exactly the firing rules' names over scripts and links, plus PHP on a comment, Server-header or URL hint. |
| Plugins.HitsInFires | web_summary.py:167-178 | A name is hit by a list of subjects iff some catalog rule of that name matches one of them. |
| Plugins.JQueryDetected | web_summary.py:123-171 | A 200 page loading `/static/jQuery-3.6.0.min.js` reports jQuery. |
| Plugins.PhpHintedExactly | web_summary.py:180-193 | PHP is hinted iff a comment or the Server header contains `php`, or the URL contains `.php`, each ignoring case. |
| Plugins.CatalogShape | web_summary.py:122-162 | The catalog has the source's 39 rules. Only Shopify's pattern is a wildcard run, and PHP's rule is the literal `.php`. |
| Patterns.EscapedSearch | web_summary.py:161-161 | A pattern with escaped dots is found iff its lower-cased text is a substring of the lower-cased subject. |
| Patterns.EscapedMatchesAt | web_summary.py:161-161 | An escaped run matches at `i` iff its lower-cased text occurs there in the lower-cased subject. |
| Patterns.ThenJsFound | web_summary.py:123-123 | A match of `name.*\.js` means `name` occurs, with `.js` at or after its end, ignoring case. |
| Patterns.ThenJsFoundWithoutNewline | web_summary.py:123-123 | On a subject without newlines the converse holds. |
| Patterns.WildcardDots | web_summary.py:134-134 | `cdn.shopify.com` with unescaped dots matches `cdn-shopify-com`; the escaped text would not. |
| Patterns.ThenJsExample | web_summary.py:123-123 | `jquery.*\.js` is found in `/static/jQuery-3.6.0.min.js`. |
| Patterns.Hits | web_summary.py:169-171 | A name is collected iff some rule with that name matches the subject. |
| Patterns.HitsIn | web_summary.py:167-178 | A name is collected iff some subject hits it. |
| Social.SocialLinks | web_summary.py:202-209 | `(platform, href)` is returned iff the href is an anchor of the page and the platform's rule matches it. |
| Social.SocialLinkByDomain | web_summary.py:202-209 | A pair is reported iff the raw href contains the platform's domain, ignoring case. |
| Social.TwitterExample | web_summary.py:204-208 | A mixed-case Twitter link listed twice yields its pair once. |
| Keywords.Occurrences | web_summary.py:111-111 | The count `Counter` keeps is positive iff the word occurs, and is at most the number of words. |
| Keywords.KeptWords | web_summary.py:110-110 | Only alphanumeric non-stop-words are kept, each as often as it occurs among the tokens. |
| Keywords.MostCommon | web_summary.py:111-112 | At most `n` pairs, each a word with its exact count. Counts are descending, with ties in first-occurrence order. A word is left out only when `n` pairs are listed and it ranks below the last one: it occurs fewer times, or as often but first occurs later. So a tie at the cut-off goes to the earlier word. |
| Keywords.KeptFirstOrder | web_summary.py:110-111 | Filtering keeps the relative first-occurrence order of kept words. |
| Keywords.TopComplete | web_summary.py:111-112 | A word missing from the first `n` ranked words ranks below the `n`-th one, and fewer than `n` are listed only when no word is missing. |
| Keywords.CutOffTie | web_summary.py:111-112 | For the words `a`, `b`, each once, `most_common(1)` is `[("a", 1)]`: the tie goes to the word that occurs first. |
| Keywords.AnalyzeKeywords | web_summary.py:107-112 | The tokenizer runs on the lower-cased text. At most ten pairs result, each an alphanumeric non-stop-word token of it with its positive occurrence count. |
| Keywords.InsertRanked | web_summary.py:112-112 | Inserting a word into a ranked list keeps it ranked by count, then first occurrence. |
| Keywords.Ranking | web_summary.py:111-112 | The distinct words, ranked by count, then first occurrence. |
| Keywords.TopKeywords | web_summary.py:110-112 | At most ten pairs of kept tokens with their occurrence counts. Counts are descending, with ties in first-occurrence order among the tokens. A kept token is left out only when ten pairs are listed and it ranks below the tenth: fewer occurrences, or as many but a later first occurrence. |
| Keywords.TopOfKept | web_summary.py:110-112 | What `most_common(10)` promises about the kept words carries over to the tokens, including which tied word wins the last place. First-occurrence order among kept words is their order among the tokens. |
| Text.Contains | web_summary.py:183-183 | Substring search: true iff the pattern occurs at some index. |

## Left out

- Transport. Session setup, the retry policy, the User-Agent header and `verify=False` (web_summary.py:34-49, 117) are not modelled.
- HTTP fetching and BeautifulSoup parsing are replaced by the snapshot. The text of a page is the record's `text` field, standing for `' '.join(soup.stripped_strings)`.
- Repeated fetches. The source fetches a URL up to five times per visit (in `main`, `extract_text`, `get_all_links`, `count_images` and `detect_plugins`). The model assumes one consistent response per URL. It therefore does not capture a page that succeeds in `main` but fails inside a helper; such a helper returns `''`, `set()` or `0` in the source.
- Keyword inputs. The nltk downloads, `word_tokenize` and the English stop-word list are the parameters `tokenize` and `stop`.
- `urljoin` (section 5.2 of RFC 3986) and `urlparse(...).netloc` are uninterpreted functions.
- General regular expressions. Only the two shapes the catalogs use are modelled.
- `Text.Lower`, `Keywords.IsAlnum`: case folding and `str.isalnum` are ASCII-only. Python's Unicode rules for other characters are not modelled.
- Printing, timing and the MB conversion in the final report (web_summary.py:231, 238, 254-259, 274-287) are not modelled.
- The pop order of `to_visit` is an arbitrary choice (`:|`). `CrawlFacts.OrderFree` shows that every total except the text, and so the keywords, is independent of it.
- `Crawl.CrawlSite`: a Content-Length header that `int()` cannot read raises an uncaught `ValueError` in the source. The model does not model that crash. Instead it requires the Content-Length header of every page that fetches, where present, to be a run of ASCII digits (`CrawlSpec.WellFormed`).
  - This also excludes some values `int()` does read: a sign (`+7`, `-1`), surrounding whitespace (` 12 `), underscores (`1_000`) and non-ASCII digits.
  - A negative value would make the source subtract from `total_bandwidth`.
- `CrawlFacts.Monotone`: the bandwidth total never decreases only because `WellFormed` excludes negative Content-Length values. `CrawlFacts.OrderFree` and `Crawl.Absorb` also rest on that precondition.
- `Crawl.CrawlSite`: only finite sites are modelled. The snapshot is a finite map, so the set of reachable same-domain URLs is finite and the loop ends (`Crawl.VisitShrinks`). The source does not guarantee this. On a site that keeps producing new same-domain URLs, such as a calendar whose "next month" link is always new, it never terminates. Termination is therefore an assumption of the model.
- `Plugins.DetectPlugins`: the three message strings are the variants `NoneFound`, `AccessFailed(url, status)` and `DetectionFailed(url)`, not their text. Under the snapshot the crawl only calls it on a URL whose request succeeds, so `DetectionFailed` never reaches the report.
- The `Unexpected error` handlers of the helpers (web_summary.py:69-71, 84-86, 102-104) have no counterpart, because parsing is not modelled.
- `Links.SameDomainLinks`: `urljoin` and `urlparse` (web_summary.py:61, 63) raise `ValueError` on a malformed href such as `http://[x`. The handler at web_summary.py:69-71 then makes `get_all_links` return `set()`, so one bad anchor drops every link of that page from both `to_visit` and `total_urls_detected`. `Web.resolve` is a total function and cannot fail, so the model keeps the page's other links.
