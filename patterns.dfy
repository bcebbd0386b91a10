/**
 * The two shapes of regular expression that the source's catalogs use. Every
 * pattern there is compiled with `re.I` and applied with `re.search`, and is
 * either a fixed run of characters (some of them unescaped dots) or
 * `name.*\.js`. Only these shapes are modelled, not a general regex engine.
 */
module Patterns {
  import opened Text

  /** One position of a pattern: a literal character, compared ignoring ASCII
      case, or an unescaped `.`, which matches any character but a newline. */
  datatype Atom = Char(c: char) | AnyButNewline

  predicate AtomMatches(a: Atom, c: char) {
    match a
    case Char(d) => LowerChar(d) == LowerChar(c)
    case AnyButNewline => c != '\n'
  }

  /** The atoms match `s` at index `i`. */
  predicate MatchesAt(atoms: seq<Atom>, s: string, i: int) {
    0 <= i && i + |atoms| <= |s| &&
    forall k :: 0 <= k < |atoms| ==> AtomMatches(atoms[k], s[i + k])
  }

  /** A pattern written with its dots escaped: every character is literal. */
  function Escaped(p: string): (atoms: seq<Atom>)
    ensures |atoms| == |p|
    ensures forall k :: 0 <= k < |p| ==> atoms[k] == Char(p[k])
  {
    seq(|p|, k requires 0 <= k < |p| => Char(p[k]))
  }

  /** A pattern whose dots are left unescaped: every `.` is a wildcard. */
  function Unescaped(p: string): (atoms: seq<Atom>)
    ensures |atoms| == |p|
    ensures forall k :: 0 <= k < |p| ==> atoms[k] == if p[k] == '.' then AnyButNewline else Char(p[k])
  {
    seq(|p|, k requires 0 <= k < |p| => if p[k] == '.' then AnyButNewline else Char(p[k]))
  }

  /** A catalog pattern, kept as the text it is written with. */
  datatype Pattern =
    | Literal(text: string)     // a fixed run with its dots escaped, such as `/wp-content/`
    | Wildcard(text: string)    // a fixed run whose dots are unescaped, such as `cdn.shopify.com`
    | ThenJs(name: string)      // `name.*\.js`

  /** The `\.js` that closes every `name.*\.js` pattern. */
  function Js(): seq<Atom> { Escaped(".js") }

  predicate NoNewline(s: string) {
    forall k :: 0 <= k < |s| ==> s[k] != '\n'
  }

  /** The atoms match somewhere in `s`. */
  predicate RunFound(atoms: seq<Atom>, s: string) {
    exists i | 0 <= i <= |s| :: MatchesAt(atoms, s, i)
  }

  /** `re.search(pattern, s, re.I)` finds a match somewhere in `s`. */
  predicate Search(pat: Pattern, s: string) {
    match pat
    case Literal(text) => RunFound(Escaped(text), s)
    case Wildcard(text) => RunFound(Unescaped(text), s)
    case ThenJs(name) =>
      exists i, j | 0 <= i <= j <= |s| ::
        && MatchesAt(Escaped(name), s, i)
        && i + |name| <= j
        && MatchesAt(Js(), s, j)
        && NoNewline(s[i + |name|..j])
  }

  /** A run of escaped characters matches at `i` exactly when its lower-cased
      text occurs there in the lower-cased subject. */
  lemma EscapedMatchesAt(p: string, s: string, i: int)
    ensures MatchesAt(Escaped(p), s, i) <==> OccursAt(Lower(p), Lower(s), i)
  {
    if 0 <= i && i + |p| <= |s| {
      var lp, window := Lower(p), Lower(s)[i..i + |p|];
      assert |window| == |lp|;
      assert forall k :: 0 <= k < |p| ==> window[k] == LowerChar(s[i + k]) && lp[k] == LowerChar(p[k]);
      assert forall k :: 0 <= k < |p| ==> (AtomMatches(Escaped(p)[k], s[i + k]) <==> window[k] == lp[k]);
      assert window == lp <==> forall k :: 0 <= k < |p| ==> window[k] == lp[k];
    }
  }

  /** A pattern with every dot escaped is plain case-insensitive containment. */
  lemma EscapedSearch(p: string, s: string)
    ensures Search(Literal(p), s) <==> Contains(Lower(s), Lower(p))
  {
    if Search(Literal(p), s) {
      var i :| 0 <= i <= |s| && MatchesAt(Escaped(p), s, i);
      EscapedMatchesAt(p, s, i);
    }
    if Contains(Lower(s), Lower(p)) {
      var i :| OccursAt(Lower(p), Lower(s), i);
      EscapedMatchesAt(p, s, i);
    }
  }

  /** `name` occurs in `s` and `.js` occurs at or after its end, ignoring case. */
  ghost predicate NameThenJs(name: string, s: string) {
    exists i, j :: OccursAt(Lower(name), Lower(s), i) && i + |name| <= j && OccursAt(Lower(".js"), Lower(s), j)
  }

  /** `name.*\.js` finds a match only if `name` occurs with `.js` at or after
      its end, ignoring case. */
  lemma ThenJsFound(name: string, s: string)
    requires Search(ThenJs(name), s)
    ensures NameThenJs(name, s)
  {
    var i, j :| 0 <= i <= j <= |s| && MatchesAt(Escaped(name), s, i) && i + |name| <= j && MatchesAt(Js(), s, j);
    EscapedMatchesAt(name, s, i);
    EscapedMatchesAt(".js", s, j);
  }

  /** On a subject without newlines (`.` does not match one) the converse
      holds: `name` followed later by `.js` is a match of `name.*\.js`. */
  lemma ThenJsFoundWithoutNewline(name: string, s: string)
    requires NoNewline(s)
    requires NameThenJs(name, s)
    ensures Search(ThenJs(name), s)
  {
    var i, j :| OccursAt(Lower(name), Lower(s), i) && i + |name| <= j && OccursAt(Lower(".js"), Lower(s), j);
    EscapedMatchesAt(name, s, i);
    EscapedMatchesAt(".js", s, j);
    assert MatchesAt(Escaped(name), s, i) && MatchesAt(Js(), s, j);
    assert NoNewline(s[i + |name|..j]);
    assert 0 <= i <= j <= |s|;
  }

  /** The unescaped dots of `cdn.shopify.com` let it match `cdn-shopify-com`,
      which the same text with escaped dots does not match. */
  lemma WildcardDots()
    ensures Search(Wildcard("cdn.shopify.com"), "//cdn-shopify-com/s.js")
    ensures !Search(Literal("cdn.shopify.com"), "cdn-shopify-com")
  {
    var s := "//cdn-shopify-com/s.js";
    assert MatchesAt(Unescaped("cdn.shopify.com"), s, 2);
    var t := "cdn-shopify-com";
    forall i | 0 <= i <= |t| ensures !MatchesAt(Escaped("cdn.shopify.com"), t, i) {
      if i == 0 {
        assert !AtomMatches(Escaped("cdn.shopify.com")[3], t[3]);
      }
    }
  }

  /** `jquery.*\.js` is found in a minified script path, whatever the case. */
  lemma ThenJsExample()
    ensures Search(ThenJs("jquery"), "/static/jQuery-3.6.0.min.js")
  {
    var s := "/static/jQuery-3.6.0.min.js";
    assert MatchesAt(Escaped("jquery"), s, 8);
    assert MatchesAt(Js(), s, 24);
    assert NoNewline(s[14..24]);
  }

  /** A named pattern of a catalog. */
  datatype Rule = Rule(name: string, pattern: Pattern)

  /** The names of the rules whose pattern is found in `s`, as the inner
      `for name, pattern in catalog.items()` loop collects them. */
  function Hits(rules: seq<Rule>, s: string): (names: set<string>)
    ensures forall n :: n in names <==>
      exists k :: 0 <= k < |rules| && rules[k].name == n && Search(rules[k].pattern, s)
  {
    if rules == [] then {}
    else
      var last := rules[|rules| - 1];
      var rest := Hits(rules[..|rules| - 1], s);
      assert forall k :: 0 <= k < |rules| - 1 ==> rules[..|rules| - 1][k] == rules[k];
      rest + if Search(last.pattern, s) then {last.name} else {}
  }

  /** The names hit by any of `subjects`, as the outer loop over script sources
      or link targets collects them. */
  function HitsIn(rules: seq<Rule>, subjects: seq<string>): (names: set<string>)
    ensures forall n :: n in names <==>
      exists i :: 0 <= i < |subjects| && n in Hits(rules, subjects[i])
  {
    if subjects == [] then {}
    else
      var rest := HitsIn(rules, subjects[..|subjects| - 1]);
      assert forall i :: 0 <= i < |subjects| - 1 ==> subjects[..|subjects| - 1][i] == subjects[i];
      rest + Hits(rules, subjects[|subjects| - 1])
  }
}
