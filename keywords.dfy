/**
 * `analyze_keywords`: lower-case the text, tokenize it, keep alphanumeric
 * tokens that are not stop words, count them, and return the ten most common
 * as `Counter.most_common(10)` does. Tokenizer and stop-word list are
 * parameters. `most_common` sorts by count, largest first, and keeps equal
 * counts in the order their words first appeared.
 */
module Keywords {
  import opened Text

  predicate IsAlnumChar(c: char) {
    'a' <= c <= 'z' || 'A' <= c <= 'Z' || '0' <= c <= '9'
  }

  /** `word.isalnum()`: non-empty, every character a letter or a digit. */
  predicate IsAlnum(w: string) {
    |w| > 0 && forall i :: 0 <= i < |w| ==> IsAlnumChar(w[i])
  }

  /** The comprehension's filter: alphanumeric and not a stop word. */
  predicate Kept(w: string, stop: set<string>) {
    IsAlnum(w) && w !in stop
  }

  /** How many times `w` occurs in `ws`, the value `Counter` keeps for it. */
  function Occurrences(ws: seq<string>, w: string): (n: nat)
    ensures n <= |ws|
    ensures n > 0 <==> w in ws
  {
    if ws == [] then 0
    else
      var init := ws[..|ws| - 1];
      assert ws == init + [ws[|ws| - 1]];
      Occurrences(init, w) + if ws[|ws| - 1] == w then 1 else 0
  }

  /** The tokens the comprehension keeps, in order: every kept word occurs as
      often as in the tokens, and nothing else occurs. */
  function KeptWords(tokens: seq<string>, stop: set<string>): (ws: seq<string>)
    ensures forall i :: 0 <= i < |ws| ==> Kept(ws[i], stop)
    ensures forall w :: Occurrences(ws, w) == if Kept(w, stop) then Occurrences(tokens, w) else 0
  {
    if tokens == [] then []
    else
      var t := tokens[|tokens| - 1];
      var init := KeptWords(tokens[..|tokens| - 1], stop);
      if Kept(t, stop) then
        var ws := init + [t];
        assert ws[..|ws| - 1] == init;
        ws
      else init
  }

  /** The index where `w` first occurs in `ws`. */
  function FirstIndex(ws: seq<string>, w: string): (i: nat)
    requires w in ws
    ensures i < |ws| && ws[i] == w
    ensures forall j :: 0 <= j < i ==> ws[j] != w
  {
    if ws[0] == w then 0 else 1 + FirstIndex(ws[1..], w)
  }

  /** Appending a word leaves the first index of every earlier word alone and
      gives a new word the last index. */
  lemma FirstIndexAppend(ws: seq<string>, x: string, w: string)
    requires w in ws + [x]
    ensures w in ws ==> FirstIndex(ws + [x], w) == FirstIndex(ws, w)
    ensures w !in ws ==> FirstIndex(ws + [x], w) == |ws|
  {
    var i := FirstIndex(ws + [x], w);
    if w in ws {
      var k := FirstIndex(ws, w);
      assert (ws + [x])[k] == w;
    } else {
      assert forall j :: 0 <= j < |ws| ==> (ws + [x])[j] != w;
    }
  }

  /** The distinct words of `ws` in order of first occurrence, the order in
      which `Counter` stores its keys. */
  function Distinct(ws: seq<string>): (d: seq<string>)
    ensures forall w :: w in d <==> w in ws
    ensures forall i, j :: 0 <= i < j < |d| ==> FirstIndex(ws, d[i]) < FirstIndex(ws, d[j])
  {
    if ws == [] then []
    else
      var x, init := ws[|ws| - 1], ws[..|ws| - 1];
      assert ws == init + [x];
      var d := Distinct(init);
      forall w | w in init ensures FirstIndex(ws, w) == FirstIndex(init, w) {
        FirstIndexAppend(init, x, w);
      }
      if x in init then d
      else
        FirstIndexAppend(init, x, x);
        d + [x]
  }

  /** `a` comes before `b` in the ranking: a larger count, or an equal count
      and an earlier first occurrence. */
  predicate Precedes(count: string -> nat, first: string -> nat, a: string, b: string) {
    count(a) > count(b) || (count(a) == count(b) && first(a) < first(b))
  }

  /** `s` lists words strictly in ranking order. */
  ghost predicate RankedBy(count: string -> nat, first: string -> nat, s: seq<string>) {
    forall i, j :: 0 <= i < j < |s| ==> Precedes(count, first, s[i], s[j])
  }

  /** One step of a stable sort by count, largest first: `x` goes after every
      word whose count is at least its own. */
  function Insert(count: string -> nat, x: string, s: seq<string>): (r: seq<string>)
    ensures multiset(r) == multiset(s) + multiset{x}
  {
    if s == [] then [x]
    else if count(s[0]) >= count(x) then
      assert s == [s[0]] + s[1..];
      [s[0]] + Insert(count, x, s[1..])
    else
      [x] + s
  }

  /** Inserting a word that first occurs after every ranked word keeps the
      ranking: the stable sort puts ties in first-occurrence order. */
  lemma {:induction false} InsertRanked(count: string -> nat, first: string -> nat, x: string, s: seq<string>)
    requires RankedBy(count, first, s)
    requires forall y :: y in s ==> first(y) < first(x)
    ensures RankedBy(count, first, Insert(count, x, s))
  {
    if s == [] {
    } else if count(s[0]) >= count(x) {
      var tail := Insert(count, x, s[1..]);
      assert RankedBy(count, first, s[1..]) by {
        forall i, j | 0 <= i < j < |s| - 1 ensures Precedes(count, first, s[1..][i], s[1..][j]) {
          assert s[1..][i] == s[i + 1] && s[1..][j] == s[j + 1];
        }
      }
      InsertRanked(count, first, x, s[1..]);
      var r := [s[0]] + tail;
      forall j | 0 <= j < |tail| ensures Precedes(count, first, s[0], tail[j]) {
        assert tail[j] in multiset(tail);
        if tail[j] != x {
          assert tail[j] in multiset(s[1..]);
          var k :| 0 <= k < |s[1..]| && s[1..][k] == tail[j];
          assert s[k + 1] == tail[j];
        }
      }
      forall i, j | 0 <= i < j < |r| ensures Precedes(count, first, r[i], r[j]) {
        if i > 0 {
          assert r[i] == tail[i - 1] && r[j] == tail[j - 1];
        }
      }
    } else {
      var r := [x] + s;
      forall k | 0 <= k < |s| ensures Precedes(count, first, x, s[k]) {
        if k > 0 {
          assert Precedes(count, first, s[0], s[k]);
        }
      }
      forall i, j | 0 <= i < j < |r| ensures Precedes(count, first, r[i], r[j]) {
        if i > 0 {
          assert r[i] == s[i - 1] && r[j] == s[j - 1];
        }
      }
    }
  }

  /** The stable sort by count, largest first, of words listed in order of
      first occurrence. */
  function Rank(count: string -> nat, first: string -> nat, d: seq<string>): (r: seq<string>)
    requires forall i, j :: 0 <= i < j < |d| ==> first(d[i]) < first(d[j])
    ensures RankedBy(count, first, r)
    ensures multiset(r) == multiset(d)
  {
    if d == [] then []
    else
      var init, x := d[..|d| - 1], d[|d| - 1];
      assert d == init + [x];
      var r := Rank(count, first, init);
      assert forall y :: y in r ==> y in init by {
        assert forall y :: y in r <==> y in multiset(r);
      }
      InsertRanked(count, first, x, r);
      Insert(count, x, r)
  }

  function Min(a: int, b: int): int {
    if a <= b then a else b
  }

  /** A word missing from the first `n` places of a ranking ranks below the
      word in place `n`. */
  lemma MissingRanksLower(count: string -> nat, first: string -> nat, ranked: seq<string>, n: nat, w: string)
    requires RankedBy(count, first, ranked) && w in ranked
    requires forall i :: 0 <= i < Min(n, |ranked|) ==> ranked[i] != w
    ensures Min(n, |ranked|) == n
    ensures n > 0 ==> Precedes(count, first, ranked[n - 1], w)
  {
    var k :| 0 <= k < |ranked| && ranked[k] == w;
    if n > 0 && n - 1 < k {
      assert Precedes(count, first, ranked[n - 1], ranked[k]);
    }
  }

  /** The first index of a word, for words that occur. */
  function FirstIn(ws: seq<string>): string -> nat {
    w => if w in ws then FirstIndex(ws, w) else |ws|
  }

  /** The count `Counter(ws)` keeps for a word. */
  function CountIn(ws: seq<string>): string -> nat {
    w => Occurrences(ws, w)
  }

  /** Every distinct word of `ws` once, ranked by count and then by first
      occurrence. */
  function Ranking(ws: seq<string>): (ranked: seq<string>)
    ensures RankedBy(CountIn(ws), FirstIn(ws), ranked)
    ensures forall w :: w in ranked <==> w in ws
  {
    var d := Distinct(ws);
    assert forall i, j :: 0 <= i < j < |d| ==> FirstIn(ws)(d[i]) < FirstIn(ws)(d[j]) by {
      forall i, j | 0 <= i < j < |d| ensures FirstIn(ws)(d[i]) < FirstIn(ws)(d[j]) {
        assert d[i] in ws && d[j] in ws;
      }
    }
    var ranked := Rank(CountIn(ws), FirstIn(ws), d);
    assert forall w :: w in ranked <==> w in ws by {
      forall w ensures w in ranked <==> w in ws {
        assert w in ranked <==> w in multiset(ranked);
        assert w in d <==> w in multiset(d);
      }
    }
    ranked
  }

  /** The first `n` words of the ranking with their counts, as
      `most_common(n)` lists them. */
  function TopOf(ws: seq<string>, ranked: seq<string>, n: nat): seq<(string, nat)> {
    var m := Min(n, |ranked|);
    seq(m, i requires 0 <= i < m => (ranked[i], Occurrences(ws, ranked[i])))
  }

  /** The listed words occur in `ws`, each with its count. */
  lemma TopCounts(ws: seq<string>, ranked: seq<string>, n: nat)
    requires ranked == Ranking(ws)
    ensures var r := TopOf(ws, ranked, n);
      forall i :: 0 <= i < |r| ==> r[i].0 in ws && r[i].1 == Occurrences(ws, r[i].0)
  {
  }

  /** The listed words come most common first, ties in first-occurrence order. */
  lemma TopOrdered(ws: seq<string>, ranked: seq<string>, n: nat, r: seq<(string, nat)>)
    requires ranked == Ranking(ws) && r == TopOf(ws, ranked, n)
    ensures forall i, j :: 0 <= i < j < |r| ==>
      || r[i].1 > r[j].1
      || (r[i].1 == r[j].1 && FirstIndex(ws, r[i].0) < FirstIndex(ws, r[j].0))
  {
    assert forall i :: 0 <= i < |r| ==> r[i].0 == ranked[i] && ranked[i] in ws;
    forall i, j | 0 <= i < j < |r|
      ensures || r[i].1 > r[j].1
              || (r[i].1 == r[j].1 && FirstIndex(ws, r[i].0) < FirstIndex(ws, r[j].0))
    {
      assert Precedes(CountIn(ws), FirstIn(ws), ranked[i], ranked[j]);
      assert CountIn(ws)(ranked[i]) == r[i].1 && CountIn(ws)(ranked[j]) == r[j].1;
      assert FirstIn(ws)(ranked[i]) == FirstIndex(ws, r[i].0);
      assert FirstIn(ws)(ranked[j]) == FirstIndex(ws, r[j].0);
    }
  }

  /** A word left out of a list of `n` ranks below the last one listed: it
      occurs less often, or as often but first occurs later. When fewer than
      `n` are listed, no word is left out. */
  lemma TopComplete(ws: seq<string>, ranked: seq<string>, n: nat, r: seq<(string, nat)>)
    requires ranked == Ranking(ws) && r == TopOf(ws, ranked, n)
    ensures forall w :: w in ws && (forall i :: 0 <= i < |r| ==> r[i].0 != w) ==>
      |r| == n && (n > 0 ==> r[n - 1].0 in ws && LaterRanked(ws, r[n - 1], w))
  {
    assert forall i :: 0 <= i < |r| ==> r[i].0 == ranked[i];
    forall w | w in ws && (forall i :: 0 <= i < |r| ==> r[i].0 != w)
      ensures |r| == n && (n > 0 ==> r[n - 1].0 in ws && LaterRanked(ws, r[n - 1], w))
    {
      MissingRanksLower(CountIn(ws), FirstIn(ws), ranked, n, w);
      if n > 0 {
        assert ranked[n - 1] in ws;
        assert Precedes(CountIn(ws), FirstIn(ws), ranked[n - 1], w);
      }
    }
  }

  /** `w` ranks after the listed pair `last`: fewer occurrences in `ws`, or as
      many and a later first occurrence. */
  predicate LaterRanked(ws: seq<string>, last: (string, nat), w: string)
    requires last.0 in ws && w in ws
  {
    || Occurrences(ws, w) < last.1
    || (Occurrences(ws, w) == last.1 && FirstIndex(ws, last.0) < FirstIndex(ws, w))
  }

  /** `Counter(ws).most_common(n)`. */
  function MostCommon(ws: seq<string>, n: nat): (r: seq<(string, nat)>)
    ensures |r| <= n
    ensures forall i :: 0 <= i < |r| ==> r[i].0 in ws && r[i].1 == Occurrences(ws, r[i].0)
    ensures forall i, j :: 0 <= i < j < |r| ==>
      || r[i].1 > r[j].1
      || (r[i].1 == r[j].1 && FirstIndex(ws, r[i].0) < FirstIndex(ws, r[j].0))
    ensures forall w :: w in ws && (forall i :: 0 <= i < |r| ==> r[i].0 != w) ==>
      |r| == n && (n > 0 ==> LaterRanked(ws, r[n - 1], w))
  {
    var ranked := Ranking(ws);
    var r := TopOf(ws, ranked, n);
    TopCounts(ws, ranked, n);
    TopOrdered(ws, ranked, n, r);
    TopComplete(ws, ranked, n, r);
    r
  }

  /** Filtering keeps the relative order in which kept words first occur. */
  lemma {:induction false} KeptFirstOrder(tokens: seq<string>, stop: set<string>, a: string, b: string)
    requires a in KeptWords(tokens, stop) && b in KeptWords(tokens, stop)
    ensures a in tokens && b in tokens
    ensures FirstIndex(KeptWords(tokens, stop), a) < FirstIndex(KeptWords(tokens, stop), b) <==>
            FirstIndex(tokens, a) < FirstIndex(tokens, b)
  {
    var ws := KeptWords(tokens, stop);
    assert Occurrences(ws, a) > 0 && Occurrences(ws, b) > 0;
    var init, t := tokens[..|tokens| - 1], tokens[|tokens| - 1];
    assert tokens == init + [t];
    var ws' := KeptWords(init, stop);
    if a in ws' && b in ws' {
      KeptFirstOrder(init, stop, a, b);
      if ws != ws' {
        FirstIndexAppend(ws', t, a);
        FirstIndexAppend(ws', t, b);
      }
      FirstIndexAppend(init, t, a);
      FirstIndexAppend(init, t, b);
    } else {
      assert ws == ws' + [t];
      assert Occurrences(ws', t) == Occurrences(init, t);
      FirstIndexAppend(ws', t, a);
      FirstIndexAppend(ws', t, b);
      FirstIndexAppend(init, t, a);
      FirstIndexAppend(init, t, b);
      if a in ws' {
        assert Occurrences(ws', a) == Occurrences(init, a);
      }
      if b in ws' {
        assert Occurrences(ws', b) == Occurrences(init, b);
      }
    }
  }

  /** `Counter(words).most_common(10)` over the kept tokens: at most ten
      words, each a kept token with its number of occurrences, most common
      first, ties in the order the words first occur among the tokens, and a
      kept token left out only when ten are listed and it ranks below the
      tenth: fewer occurrences, or as many and a later first occurrence. */
  function TopKeywords(tokens: seq<string>, stop: set<string>): (r: seq<(string, nat)>)
    ensures |r| <= 10
    ensures forall i :: 0 <= i < |r| ==>
      Kept(r[i].0, stop) && r[i].0 in tokens && r[i].1 == Occurrences(tokens, r[i].0)
    ensures forall i, j :: 0 <= i < j < |r| ==>
      || r[i].1 > r[j].1
      || (r[i].1 == r[j].1 && FirstIndex(tokens, r[i].0) < FirstIndex(tokens, r[j].0))
    ensures forall w :: w in tokens && Kept(w, stop) && (forall i :: 0 <= i < |r| ==> r[i].0 != w) ==>
      |r| == 10 && LaterRanked(tokens, r[9], w)
  {
    var r := MostCommon(KeptWords(tokens, stop), 10);
    TopOfKept(tokens, stop, r);
    r
  }

  /** What `MostCommon` promises about the kept words, restated about the tokens. */
  lemma TopOfKept(tokens: seq<string>, stop: set<string>, r: seq<(string, nat)>)
    requires r == MostCommon(KeptWords(tokens, stop), 10)
    ensures forall i :: 0 <= i < |r| ==>
      Kept(r[i].0, stop) && r[i].0 in tokens && r[i].1 == Occurrences(tokens, r[i].0)
    ensures forall i, j :: 0 <= i < j < |r| ==>
      || r[i].1 > r[j].1
      || (r[i].1 == r[j].1 && FirstIndex(tokens, r[i].0) < FirstIndex(tokens, r[j].0))
    ensures forall w :: w in tokens && Kept(w, stop) && (forall i :: 0 <= i < |r| ==> r[i].0 != w) ==>
      |r| == 10 && LaterRanked(tokens, r[9], w)
  {
    var ws := KeptWords(tokens, stop);
    assert forall i :: 0 <= i < |r| ==> r[i].0 in ws;
    assert forall i :: 0 <= i < |r| ==> Kept(r[i].0, stop) && Occurrences(ws, r[i].0) > 0 by {
      forall i | 0 <= i < |r| ensures Kept(r[i].0, stop) && Occurrences(ws, r[i].0) > 0 {
        var k :| 0 <= k < |ws| && ws[k] == r[i].0;
      }
    }
    forall i, j | 0 <= i < j < |r| && r[i].1 == r[j].1
      ensures FirstIndex(tokens, r[i].0) < FirstIndex(tokens, r[j].0)
    {
      KeptFirstOrder(tokens, stop, r[i].0, r[j].0);
    }
    forall w | w in tokens && Kept(w, stop) && (forall i :: 0 <= i < |r| ==> r[i].0 != w)
      ensures |r| == 10 && LaterRanked(tokens, r[9], w)
    {
      assert Occurrences(ws, w) == Occurrences(tokens, w);
      assert w in ws;
      assert LaterRanked(ws, r[9], w);
      KeptFirstOrder(tokens, stop, r[9].0, w);
    }
  }

  /** `analyze_keywords(text)`: the tokenizer runs on the lower-cased text. */
  function AnalyzeKeywords(text: string, tokenize: string -> seq<string>, stop: set<string>): (r: seq<(string, nat)>)
    ensures |r| <= 10
    ensures forall i :: 0 <= i < |r| ==>
      && Kept(r[i].0, stop) && r[i].0 in tokenize(Lower(text))
      && r[i].1 == Occurrences(tokenize(Lower(text)), r[i].0) > 0
  {
    TopKeywords(tokenize(Lower(text)), stop)
  }

  /** A tie at the cut-off goes to the word that occurs first: of `a` and `b`,
      once each, `most_common(1)` lists `a`. */
  lemma CutOffTie(ws: seq<string>)
    requires |ws| == 2 && ws[0] == "a" && ws[1] == "b"
    ensures MostCommon(ws, 1) == [("a", 1)]
  {
    TwoWords(ws);
    var r := MostCommon(ws, 1);
    assert |r| == 1 && r[0].0 == "a";
  }

  lemma TwoWords(ws: seq<string>)
    requires |ws| == 2 && ws[0] == "a" && ws[1] == "b"
    ensures "a" in ws && "b" in ws
    ensures forall w :: w in ws ==> w == "a" || w == "b"
    ensures FirstIndex(ws, "a") == 0 && FirstIndex(ws, "b") == 1
    ensures Occurrences(ws, "a") == 1 && Occurrences(ws, "b") == 1
  {
    assert ws[1..] == ["b"];
    assert ws[..1] == ["a"] && ["a"][..0] == [];
  }



}
