/**
 * `_deduplicate`: a greedy single pass that keeps an article when neither its
 * normalised URL nor its normalised title was seen on an article kept earlier.
 */
module Deduplicator {
  import opened Wrappers
  import opened Json
  import opened Text
  import opened Articles

  /** `s.strip().lower()` */
  function Key(s: string): string {
    Lower(Strip(s))
  }

  /** Passes the bad-data check: both `url` and `title` are truthy. */
  predicate Present(a: Article) {
    Truthy(a.url) && Truthy(a.title)
  }

  /** Passes the bad-data check and both keys can be computed. */
  predicate Keyed(a: Article) {
    Present(a) && a.url.JStr? && a.title.JStr?
  }

  /** Passes the bad-data check but `.strip()` raises on a non-string url or title. */
  predicate Unkeyable(a: Article) {
    Present(a) && !(a.url.JStr? && a.title.JStr?)
  }

  function UrlKey(a: Article): string
    requires a.url.JStr?
  {
    Key(a.url.s)
  }

  function TitleKey(a: Article): string
    requires a.title.JStr?
  {
    Key(a.title.s)
  }

  predicate AllKeyed(xs: seq<Article>) {
    forall i :: 0 <= i < |xs| ==> Keyed(xs[i])
  }

  /** Normalised URLs are pairwise distinct, and so are normalised titles. */
  predicate DistinctKeys(xs: seq<Article>) {
    && AllKeyed(xs)
    && forall i, j :: 0 <= i < j < |xs| ==> UrlKey(xs[i]) != UrlKey(xs[j]) && TitleKey(xs[i]) != TitleKey(xs[j])
  }

  /** The normalised URLs of the articles in `xs` (whose url is a string). */
  function UrlKeys(xs: seq<Article>): set<string> {
    set i | 0 <= i < |xs| && xs[i].url.JStr? :: UrlKey(xs[i])
  }

  /** The normalised titles of the articles in `xs` (whose title is a string). */
  function TitleKeys(xs: seq<Article>): set<string> {
    set i | 0 <= i < |xs| && xs[i].title.JStr? :: TitleKey(xs[i])
  }

  /** `xs` is `ys` with some elements left out. */
  predicate IsSubsequence<T(==)>(xs: seq<T>, ys: seq<T>)
    decreases |ys|
  {
    if |ys| == 0 then |xs| == 0
    else (|xs| > 0 && xs[0] == ys[0] && IsSubsequence(xs[1..], ys[1..])) || IsSubsequence(xs, ys[1..])
  }

  lemma {:induction false} SubsequenceMembers<T>(xs: seq<T>, ys: seq<T>)
    requires IsSubsequence(xs, ys)
    ensures forall x :: x in xs ==> x in ys
    decreases |ys|
  {
    if |ys| > 0 {
      if |xs| > 0 && xs[0] == ys[0] && IsSubsequence(xs[1..], ys[1..]) {
        SubsequenceMembers(xs[1..], ys[1..]);
        assert forall x :: x in xs ==> x == xs[0] || x in xs[1..];
      } else {
        SubsequenceMembers(xs, ys[1..]);
      }
    }
  }

  /** Leaving articles out cannot make two keys collide. */
  lemma {:induction false} SubsequenceKeepsDistinct(xs: seq<Article>, ys: seq<Article>)
    requires IsSubsequence(xs, ys) && DistinctKeys(ys)
    ensures DistinctKeys(xs)
    decreases |ys|
  {
    if |ys| > 0 {
      assert forall i :: 1 <= i < |ys| ==> ys[1..][i - 1] == ys[i];
      assert DistinctKeys(ys[1..]);
      if |xs| > 0 && xs[0] == ys[0] && IsSubsequence(xs[1..], ys[1..]) {
        SubsequenceKeepsDistinct(xs[1..], ys[1..]);
        SubsequenceMembers(xs[1..], ys[1..]);
        forall j | 1 <= j < |xs|
          ensures UrlKey(xs[0]) != UrlKey(xs[j]) && TitleKey(xs[0]) != TitleKey(xs[j])
        {
          assert xs[j] == xs[1..][j - 1];
          assert xs[j] in ys[1..];
          var k :| 0 <= k < |ys[1..]| && ys[1..][k] == xs[j];
          assert ys[k + 1] == xs[j];
        }
        assert forall i :: 1 <= i < |xs| ==> xs[1..][i - 1] == xs[i];
      } else {
        SubsequenceKeepsDistinct(xs, ys[1..]);
      }
    }
  }

  /** Dropping articles cannot create a repeated id. */
  lemma {:induction false} SubsequenceKeepsDistinctIds(xs: seq<Article>, ys: seq<Article>)
    requires IsSubsequence(xs, ys) && DistinctIds(ys)
    ensures DistinctIds(xs)
    decreases |ys|
  {
    if |ys| > 0 {
      assert forall i :: 1 <= i < |ys| ==> ys[1..][i - 1] == ys[i];
      assert DistinctIds(ys[1..]);
      if |xs| > 0 && xs[0] == ys[0] && IsSubsequence(xs[1..], ys[1..]) {
        SubsequenceKeepsDistinctIds(xs[1..], ys[1..]);
        SubsequenceMembers(xs[1..], ys[1..]);
        forall j | 1 <= j < |xs| ensures xs[0].id != xs[j].id {
          assert xs[j] == xs[1..][j - 1];
          assert xs[j] in ys[1..];
          var k :| 0 <= k < |ys[1..]| && ys[1..][k] == xs[j];
          assert ys[k + 1] == xs[j];
        }
        assert forall i :: 1 <= i < |xs| ==> xs[1..][i - 1] == xs[i];
      } else {
        SubsequenceKeepsDistinctIds(xs, ys[1..]);
      }
    }
  }

  /** Puts `a` in front of a successful result. */
  function Cons(a: Article, r: Option<seq<Article>>): Option<seq<Article>> {
    match r
    case None => None
    case Some(rest) => Some([a] + rest)
  }

  /** Puts `front` in front of a successful result. */
  function Prefix(front: seq<Article>, r: Option<seq<Article>>): Option<seq<Article>> {
    match r
    case None => None
    case Some(rest) => Some(front + rest)
  }

  /** The loop from some point on, with the keys seen so far; `None` when `.strip()` raises. */
  function DedupFrom(arts: seq<Article>, seenUrls: set<string>, seenTitles: set<string>): Option<seq<Article>>
    decreases |arts|
  {
    if |arts| == 0 then Some([])
    else
      var a := arts[0];
      if !Present(a) then DedupFrom(arts[1..], seenUrls, seenTitles)
      else if Unkeyable(a) then None
      else if UrlKey(a) in seenUrls || TitleKey(a) in seenTitles then DedupFrom(arts[1..], seenUrls, seenTitles)
      else Cons(a, DedupFrom(arts[1..], seenUrls + {UrlKey(a)}, seenTitles + {TitleKey(a)}))
  }

  function Dedup(arts: seq<Article>): Option<seq<Article>> {
    DedupFrom(arts, {}, {})
  }

  /** The Python loop, carrying the seen-URL and seen-title sets. */
  method Deduplicate(arts: seq<Article>) returns (r: Option<seq<Article>>)
    ensures r == Dedup(arts)
  {
    var seenUrls: set<string> := {};
    var seenTitles: set<string> := {};
    var unique: seq<Article> := [];
    var i := 0;
    assert arts[0..] == arts;
    assert Prefix([], Dedup(arts)) == Dedup(arts) by {
      if Dedup(arts).Some? {
        assert [] + Dedup(arts).value == Dedup(arts).value;
      }
    }
    while i < |arts|
      invariant 0 <= i <= |arts|
      invariant Dedup(arts) == Prefix(unique, DedupFrom(arts[i..], seenUrls, seenTitles))
    {
      var art := arts[i];
      assert arts[i..][0] == art && arts[i..][1..] == arts[i + 1..];
      if !Truthy(art.url) || !Truthy(art.title) {
        i := i + 1;
        continue;
      }
      if !art.url.JStr? || !art.title.JStr? {
        return None;
      }
      var urlHash := Key(art.url.s);
      var titleHash := Key(art.title.s);
      if urlHash in seenUrls {
        i := i + 1;
        continue;
      }
      if titleHash in seenTitles {
        i := i + 1;
        continue;
      }
      seenUrls := seenUrls + {urlHash};
      seenTitles := seenTitles + {titleHash};
      var rest := DedupFrom(arts[i + 1..], seenUrls, seenTitles);
      assert Prefix(unique, Cons(art, rest)) == Prefix(unique + [art], rest) by {
        if rest.Some? {
          assert unique + ([art] + rest.value) == (unique + [art]) + rest.value;
        }
      }
      unique := unique + [art];
      i := i + 1;
    }
    assert arts[i..] == [];
    assert unique + [] == unique;
    return Some(unique);
  }

  /** The pass raises exactly when some article passes the bad-data check with a non-string url or title. */
  lemma {:induction false} DedupRaisesIff(arts: seq<Article>, seenUrls: set<string>, seenTitles: set<string>)
    ensures DedupFrom(arts, seenUrls, seenTitles).None? <==> exists i :: 0 <= i < |arts| && Unkeyable(arts[i])
    decreases |arts|
  {
    if |arts| > 0 {
      var a := arts[0];
      assert forall i :: 1 <= i < |arts| ==> arts[i] == arts[1..][i - 1];
      if Present(a) && !Unkeyable(a) && !(UrlKey(a) in seenUrls || TitleKey(a) in seenTitles) {
        DedupRaisesIff(arts[1..], seenUrls + {UrlKey(a)}, seenTitles + {TitleKey(a)});
      } else {
        DedupRaisesIff(arts[1..], seenUrls, seenTitles);
      }
    }
  }

  /**
   * What the pass keeps: articles that passed the bad-data check, whose keys were
   * not seen before and are pairwise distinct, in input order.
   */
  lemma {:induction false} DedupFromSound(arts: seq<Article>, seenUrls: set<string>, seenTitles: set<string>)
    requires DedupFrom(arts, seenUrls, seenTitles).Some?
    ensures var r := DedupFrom(arts, seenUrls, seenTitles).value;
      && DistinctKeys(r)
      && (forall i :: 0 <= i < |r| ==> UrlKey(r[i]) !in seenUrls && TitleKey(r[i]) !in seenTitles)
      && IsSubsequence(r, arts)
    decreases |arts|
  {
    var r := DedupFrom(arts, seenUrls, seenTitles).value;
    if |arts| > 0 {
      var a := arts[0];
      if !Present(a) || UrlKey(a) in seenUrls || TitleKey(a) in seenTitles {
        DedupFromSound(arts[1..], seenUrls, seenTitles);
      } else {
        var u, t := UrlKey(a), TitleKey(a);
        DedupFromSound(arts[1..], seenUrls + {u}, seenTitles + {t});
        var rest := DedupFrom(arts[1..], seenUrls + {u}, seenTitles + {t}).value;
        assert r == [a] + rest;
        assert forall i :: 1 <= i < |r| ==> r[i] == rest[i - 1];
        assert r[1..] == rest;
      }
    }
  }

  /** `_deduplicate` never returns an article whose raw url or title is falsy. */
  lemma DedupDropsFalsy(arts: seq<Article>)
    requires Dedup(arts).Some?
    ensures forall i :: 0 <= i < |Dedup(arts).value| ==>
      Truthy(Dedup(arts).value[i].url) && Truthy(Dedup(arts).value[i].title)
  {
    DedupFromSound(arts, {}, {});
  }

  /** In the output, normalised URLs are pairwise distinct, and so are normalised titles. */
  lemma DedupDistinct(arts: seq<Article>)
    requires Dedup(arts).Some?
    ensures DistinctKeys(Dedup(arts).value)
  {
    DedupFromSound(arts, {}, {});
  }

  /** The output is an order-preserving subsequence of the input. */
  lemma DedupSubsequence(arts: seq<Article>)
    requires Dedup(arts).Some?
    ensures IsSubsequence(Dedup(arts).value, arts)
  {
    DedupFromSound(arts, {}, {});
  }

  /** A sequence that already has distinct keys, none of them seen, passes through unchanged. */
  lemma {:induction false} DedupFromFixpoint(xs: seq<Article>, seenUrls: set<string>, seenTitles: set<string>)
    requires DistinctKeys(xs)
    requires forall i :: 0 <= i < |xs| ==> UrlKey(xs[i]) !in seenUrls && TitleKey(xs[i]) !in seenTitles
    ensures DedupFrom(xs, seenUrls, seenTitles) == Some(xs)
    decreases |xs|
  {
    if |xs| > 0 {
      var a := xs[0];
      var u, t := UrlKey(a), TitleKey(a);
      assert forall i :: 1 <= i < |xs| ==> xs[1..][i - 1] == xs[i];
      DedupFromFixpoint(xs[1..], seenUrls + {u}, seenTitles + {t});
      assert xs == [a] + xs[1..];
    }
  }

  /** Deduplicating twice gives the same result as deduplicating once. */
  lemma DedupIdempotent(arts: seq<Article>)
    requires Dedup(arts).Some?
    ensures Dedup(Dedup(arts).value) == Dedup(arts)
  {
    DedupFromSound(arts, {}, {});
    DedupFromFixpoint(Dedup(arts).value, {}, {});
  }

  /** How one more article changes the output: it is kept iff it passes the bad-data check and neither key belongs to an article kept so far. */
  function Step(kept: seq<Article>, seenUrls: set<string>, seenTitles: set<string>, a: Article): Option<seq<Article>> {
    if !Present(a) then Some(kept)
    else if Unkeyable(a) then None
    else if UrlKey(a) in seenUrls || TitleKey(a) in seenTitles then Some(kept)
    else Some(kept + [a])
  }

  lemma UrlKeysCons(a: Article, xs: seq<Article>)
    requires Keyed(a) && AllKeyed(xs)
    ensures AllKeyed([a] + xs)
    ensures UrlKeys([a] + xs) == {UrlKey(a)} + UrlKeys(xs)
    ensures TitleKeys([a] + xs) == {TitleKey(a)} + TitleKeys(xs)
  {
    var ys := [a] + xs;
    assert forall i :: 1 <= i < |ys| ==> ys[i] == xs[i - 1];
    forall k | k in UrlKeys(xs) ensures k in UrlKeys(ys) {
      var i :| 0 <= i < |xs| && xs[i].url.JStr? && UrlKey(xs[i]) == k;
      assert ys[i + 1] == xs[i];
    }
    forall k | k in TitleKeys(xs) ensures k in TitleKeys(ys) {
      var i :| 0 <= i < |xs| && xs[i].title.JStr? && TitleKey(xs[i]) == k;
      assert ys[i + 1] == xs[i];
    }
    assert ys[0] == a;
  }

  /** Putting an article in front commutes with one more step of deduplication. */
  lemma ConsStep(x: Article, kept: seq<Article>, seenUrls: set<string>, seenTitles: set<string>, a: Article)
    ensures Cons(x, Step(kept, seenUrls, seenTitles, a)) == Step([x] + kept, seenUrls, seenTitles, a)
  {
    assert [x] + (kept + [a]) == ([x] + kept) + [a];
  }

  lemma {:induction false} DedupFromSnoc(xs: seq<Article>, a: Article, seenUrls: set<string>, seenTitles: set<string>)
    ensures DedupFrom(xs + [a], seenUrls, seenTitles) ==
      match DedupFrom(xs, seenUrls, seenTitles)
      case None => None
      case Some(kept) => Step(kept, seenUrls + UrlKeys(kept), seenTitles + TitleKeys(kept), a)
    decreases |xs|
  {
    if |xs| == 0 {
      assert xs + [a] == [a];
      assert [a][1..] == [];
      assert UrlKeys([]) == {} && TitleKeys([]) == {};
      assert [] + [a] == [a] + [];
    } else {
      var x := xs[0];
      var ys := xs + [a];
      assert ys[0] == x && ys[1..] == xs[1..] + [a];
      if Unkeyable(x) {
        assert DedupFrom(ys, seenUrls, seenTitles) == None;
      } else if !Present(x) || UrlKey(x) in seenUrls || TitleKey(x) in seenTitles {
        DedupFromSnoc(xs[1..], a, seenUrls, seenTitles);
        assert DedupFrom(ys, seenUrls, seenTitles) == DedupFrom(xs[1..] + [a], seenUrls, seenTitles);
        assert DedupFrom(xs, seenUrls, seenTitles) == DedupFrom(xs[1..], seenUrls, seenTitles);
      } else {
        var u, t := UrlKey(x), TitleKey(x);
        DedupFromSnoc(xs[1..], a, seenUrls + {u}, seenTitles + {t});
        assert DedupFrom(ys, seenUrls, seenTitles) == Cons(x, DedupFrom(xs[1..] + [a], seenUrls + {u}, seenTitles + {t}));
        var tail := DedupFrom(xs[1..], seenUrls + {u}, seenTitles + {t});
        assert DedupFrom(xs, seenUrls, seenTitles) == Cons(x, tail);
        if tail.Some? {
          var k := tail.value;
          DedupFromSound(xs[1..], seenUrls + {u}, seenTitles + {t});
          UrlKeysCons(x, k);
          var us, ts := (seenUrls + {u}) + UrlKeys(k), (seenTitles + {t}) + TitleKeys(k);
          assert seenUrls + UrlKeys([x] + k) == us;
          assert seenTitles + TitleKeys([x] + k) == ts;
          ConsStep(x, k, us, ts, a);
        }
      }
    }
  }

  /**
   * First occurrence wins: extending the input by one article either raises, or
   * keeps the earlier output and appends the article exactly when it passes the
   * bad-data check and neither key is that of an article kept so far (keys of
   * skipped articles are not recorded).
   */
  lemma DedupAppend(xs: seq<Article>, a: Article)
    requires Dedup(xs).Some?
    ensures AllKeyed(Dedup(xs).value)
    ensures Dedup(xs + [a]) == Step(Dedup(xs).value, UrlKeys(Dedup(xs).value), TitleKeys(Dedup(xs).value), a)
  {
    DedupFromSound(xs, {}, {});
    DedupFromSnoc(xs, a, {}, {});
    assert {} + UrlKeys(Dedup(xs).value) == UrlKeys(Dedup(xs).value);
    assert {} + TitleKeys(Dedup(xs).value) == TitleKeys(Dedup(xs).value);
  }

  function Sample(url: string, title: string, id: string): Article {
    Article(JStr(id), JStr("s"), JStr(title), JStr("t"), JStr(url), JStr("d"), JStr("en"), JStr("d"))
  }

  /** The normalised keys of the collector test's articles. */
  lemma SampleKeysDiffer()
    ensures Key("http://a.com") != Key("http://b.com")
    ensures Key("A") != Key("B")
  {
    assert Strip("http://a.com") == "http://a.com";
    assert Strip("http://b.com") == "http://b.com";
    assert Lower("http://a.com")[7] == 'a';
    assert Lower("http://b.com")[7] == 'b';
    assert Strip("A") == "A";
    assert Strip("B") == "B";
    assert Lower("A")[0] == 'a';
    assert Lower("B")[0] == 'b';
  }

  /** The collector test: a second article with an already-seen URL is dropped even though its title differs. */
  lemma SameUrlDifferentTitleExample()
    ensures var a := Sample("http://a.com", "A", "1");
      var dup := Sample("http://a.com", "A Duplicate", "2");
      var b := Sample("http://b.com", "B", "3");
      Dedup([a, dup, b]) == Some([a, b])
  {
    var a := Sample("http://a.com", "A", "1");
    var dup := Sample("http://a.com", "A Duplicate", "2");
    var b := Sample("http://b.com", "B", "3");
    SampleKeysDiffer();
    assert [a, dup, b][1..] == [dup, b];
    assert [dup, b][1..] == [b];
    assert [b][1..] == [];
    var u, t := {Key("http://a.com")}, {Key("A")};
    assert DedupFrom([], u + {Key("http://b.com")}, t + {Key("B")}) == Some([]);
    assert Present(b) && !Unkeyable(b);
    assert UrlKey(b) == Key("http://b.com");
    assert UrlKey(b) !in u;
    assert TitleKey(b) !in t;
    assert DedupFrom([b], u, t) == Cons(b, DedupFrom([], u + {Key("http://b.com")}, t + {Key("B")}));
    assert [b] + [] == [b];
    assert DedupFrom([b], u, t) == Some([b]);
    assert Present(dup) && !Unkeyable(dup) && UrlKey(dup) in u;
    assert [dup, b][0] == dup;
    assert DedupFrom([dup, b], u, t) == DedupFrom([dup, b][1..], u, t);
    assert DedupFrom([dup, b], u, t) == Some([b]);
    assert Present(a) && !Unkeyable(a);
    var none: set<string> := {};
    assert none + {UrlKey(a)} == u && none + {TitleKey(a)} == t;
    assert [a, dup, b][0] == a;
    assert Dedup([a, dup, b]) == Cons(a, DedupFrom([dup, b], u, t));
    assert [a] + [b] == [a, b];
  }

  /** The check is on the raw value before trimming, so a whitespace-only title is kept. */
  lemma BlankTitleKeptExample()
    ensures var a := Sample("http://a.com", " ", "1");
      Dedup([a]) == Some([a])
  {
    var a := Sample("http://a.com", " ", "1");
    assert [a][1..] == [];
    assert Present(a);
    assert DedupFrom([], {Key("http://a.com")}, {Key(" ")}) == Some([]);
    assert [a] + [] == [a];
  }
}
