/** What a lexical search answers, said of the Files of the snapshot themselves. */
module SearchAnswer {
  import opened Common
  import opened Vault
  import opened LexicalSearch
  import Sorting

  // ----- similarity, as pairs of equal tokens -----

  /** In how many ways a token of `a` can be paired with an equal token of `b`. */
  function Pairs(a: seq<string>, b: seq<string>): nat {
    if a == [] then 0 else multiset(b)[a[0]] + Pairs(a[1..], b)
  }

  /** The squared cosine of two texts, from the tokens themselves. */
  function Similarity(a: seq<string>, b: seq<string>): real {
    if Pairs(a, b) == 0 || Pairs(a, a) * Pairs(b, b) == 0 then 0.0
    else (Pairs(a, b) * Pairs(a, b)) as real / (Pairs(a, a) * Pairs(b, b)) as real
  }

  /** The sum of the products of both counts over a list of words. */
  ghost function SumOver(ws: seq<string>, a: multiset<string>, b: multiset<string>): nat {
    if ws == [] then 0 else a[ws[0]] * b[ws[0]] + SumOver(ws[1..], a, b)
  }

  lemma {:induction false} SumWithout(ws: seq<string>, a: multiset<string>, b: multiset<string>, w: string)
    requires w !in ws
    ensures SumOver(ws, a - multiset{w}, b) == SumOver(ws, a, b)
  {
    if ws != [] { SumWithout(ws[1..], a, b, w); }
  }

  lemma {:induction false} SumDropsOne(ws: seq<string>, a: multiset<string>, b: multiset<string>, w: string)
    requires Distinct(ws) && w in ws && a[w] > 0
    ensures SumOver(ws, a, b) == b[w] + SumOver(ws, a - multiset{w}, b)
  {
    assert ws == [ws[0]] + ws[1..];
    if ws[0] == w {
      SumWithout(ws[1..], a, b, w);
      assert a[w] * b[w] == (a[w] - 1) * b[w] + b[w];
    } else {
      SumDropsOne(ws[1..], a, b, w);
    }
  }

  lemma {:induction false} SumIsPairs(ws: seq<string>, a: seq<string>, b: seq<string>)
    requires Distinct(ws) && forall w :: w in a ==> w in ws
    ensures SumOver(ws, multiset(a), multiset(b)) == Pairs(a, b)
  {
    if a == [] {
      SumOfNothing(ws, multiset(b));
    } else {
      assert a == [a[0]] + a[1..];
      assert multiset(a) - multiset{a[0]} == multiset(a[1..]);
      SumDropsOne(ws, multiset(a), multiset(b), a[0]);
      SumIsPairs(ws, a[1..], b);
    }
  }

  lemma {:induction false} SumOfNothing(ws: seq<string>, b: multiset<string>)
    ensures SumOver(ws, multiset{}, b) == 0
  {
    if ws != [] { SumOfNothing(ws[1..], b); }
  }

  lemma {:induction false} GetPresent(ts: seq<Term>, i: nat)
    requires WordsDistinct(ts) && i < |ts|
    ensures Get(ts, ts[i].word) == ts[i].count
  {
    if i > 0 { GetPresent(ts[1..], i - 1); }
  }

  lemma GetIsCount(tokens: seq<string>, w: string)
    ensures Get(TermCounts(tokens), w) == multiset(tokens)[w]
  {
    var ts := TermCounts(tokens);
    TermCountsSound(tokens);
    hide TermCounts;
    if w in tokens {
      var i :| 0 <= i < |ts| && ts[i] == Term(w, multiset(tokens)[w]);
      GetPresent(ts, i);
    } else {
      forall i | 0 <= i < |ts| ensures ts[i].word != w {
        assert ts[i] in ts;
      }
      GetAbsent(ts, w);
    }
  }

  lemma {:induction false} DotIsSum(words: seq<string>, ts: seq<Term>, a: multiset<string>, right: seq<Term>,
      b: multiset<string>)
    requires |ts| == |words| && forall i :: 0 <= i < |ts| ==> ts[i] == Term(words[i], a[words[i]])
    requires forall w :: Get(right, w) == b[w]
    ensures Dot(ts, right) == SumOver(words, a, b)
  {
    if ts != [] { DotIsSum(words[1..], ts[1..], a, right, b); }
  }

  lemma {:induction false} NormIsDot(ts: seq<Term>, all: seq<Term>)
    requires forall i :: 0 <= i < |ts| ==> Get(all, ts[i].word) == ts[i].count
    ensures Norm(ts) == Dot(ts, all)
  {
    if ts != [] { NormIsDot(ts[1..], all); }
  }

  /** The dot product of two term maps counts the pairs of equal tokens. */
  lemma DotIsPairs(a: seq<string>, b: seq<string>)
    ensures Dot(TermCounts(a), TermCounts(b)) == Pairs(a, b)
  {
    SortedWordsSound(a);
    forall w ensures Get(TermCounts(b), w) == multiset(b)[w] { GetIsCount(b, w); }
    DotIsSum(SortedWords(a), TermCounts(a), multiset(a), TermCounts(b), multiset(b));
    SumIsPairs(SortedWords(a), a, b);
  }

  /** Scoring two term maps is comparing the tokens they count. */
  lemma ScoreIsSimilarity(a: seq<string>, b: seq<string>)
    ensures Score(TermCounts(a), TermCounts(b)) == Similarity(a, b)
  {
    DotIsPairs(a, b);
    DotIsPairs(a, a);
    DotIsPairs(b, b);
    NormIsPairs(a);
    NormIsPairs(b);
  }

  lemma NormIsPairs(a: seq<string>)
    ensures Norm(TermCounts(a)) == Pairs(a, a)
  {
    DotIsPairs(a, a);
    var ts := TermCounts(a);
    forall i | 0 <= i < |ts| ensures Get(ts, ts[i].word) == ts[i].count {
      GetIsCount(a, ts[i].word);
    }
    NormIsDot(ts, ts);
  }

  // ----- the answer -----

  /** The text a File holds; a File that is not UTF-8 text has none. */
  function TextOf(v: Store, x: Texts, f: Id): Option<string> {
    if f in v.files && v.files[f].basis.objectId in v.objects
    then x.decode(v.objects[v.files[f].basis.objectId]) else None
  }

  /** How well the text of a File matches the query. */
  function FileScore(v: Store, x: Texts, query: string, f: Id): real {
    match TextOf(v, x, f)
    case None => 0.0
    case Some(text) => Similarity(Tokens(x.normalize(query), x.isToken), Tokens(x.normalize(text), x.isToken))
  }

  function Matching(v: Store, x: Texts, members: seq<Id>, query: string): set<Id> {
    set f | f in members && FileScore(v, x, query, f) > 0.0
  }

  ghost predicate FilesDistinct(hits: seq<Hit>) {
    forall i, j :: 0 <= i < j < |hits| ==> hits[i].file != hits[j].file
  }

  ghost predicate Lists(hits: seq<Hit>, f: Id) {
    exists i :: 0 <= i < |hits| && hits[i].file == f
  }

  /** The best matching members, best first, each once and with its own score: as many as there are
      unless that is more than the limit, and what is left out ranks behind all that is listed. */
  ghost predicate Answers(v: Store, x: Texts, members: seq<Id>, query: string, limit: nat, hits: seq<Hit>) {
    && InRankOrder(hits) && FilesDistinct(hits)
    && (forall i :: 0 <= i < |hits| ==>
          hits[i].file in Matching(v, x, members, query) && hits[i].score == FileScore(v, x, query, hits[i].file))
    && |hits| == (if limit < |Matching(v, x, members, query)| then limit else |Matching(v, x, members, query)|)
    && (forall f, i :: f in Matching(v, x, members, query) && !Lists(hits, f) && 0 <= i < |hits| ==>
          Before(hits[i], Hit(f, FileScore(v, x, query, f))))
  }

  // ----- the brute-force search answers this -----

  /** The documents are those of the text members, each once. */
  ghost predicate DocumentsOf(v: Store, x: Texts, members: seq<Id>, docs: seq<Document>) {
    && (forall i, j :: 0 <= i < j < |docs| ==> docs[i].file != docs[j].file)
    && (forall i :: 0 <= i < |docs| ==>
          && docs[i].file in members && TextOf(v, x, docs[i].file).Some?
          && docs[i].terms == Terms(x, TextOf(v, x, docs[i].file).value))
    && (forall f :: f in members && TextOf(v, x, f).Some? ==> exists i :: 0 <= i < |docs| && docs[i].file == f)
  }

  lemma DocumentOfText(h: Hashes, v: Store, x: Texts, f: Id)
    requires Readable(h, v, f)
    ensures DocumentOf(h, v, x, f) ==
      if TextOf(v, x, f).None? then [] else [Document(f, Terms(x, TextOf(v, x, f).value))]
  {
    hide Terms;
  }

  lemma {:induction false} DocumentsAre(h: Hashes, v: Store, x: Texts, members: seq<Id>)
    requires StrictlyAscending(members) && forall f :: f in members ==> Readable(h, v, f)
    ensures DocumentsOf(v, x, members, Documents(h, v, x, members))
  {
    hide Readable, DocumentOf, DocumentsOf, Terms, TextOf;
    if members == [] {
      NoDocumentsOf(v, x);
    } else {
      var f, rest := members[0], members[1..];
      assert f in members && members == [f] + rest;
      DocumentsAre(h, v, x, rest);
      DocumentOfText(h, v, x, f);
      if TextOf(v, x, f).None? {
        assert [] + Documents(h, v, x, rest) == Documents(h, v, x, rest);
        SkipsMember(v, x, f, rest, Documents(h, v, x, rest));
      } else {
        AddsMember(v, x, f, rest, Documents(h, v, x, rest));
      }
    }
  }

  /** The members an index skips are those that hold no text. */
  lemma {:induction false} SkippedAre(h: Hashes, v: Store, x: Texts, members: seq<Id>)
    requires forall f :: f in members ==> Readable(h, v, f)
    ensures forall f :: f in Skipped(h, v, x, members) <==> f in members && TextOf(v, x, f).None?
  {
    hide Readable, DocumentOf, Terms, TextOf;
    if members != [] {
      assert members[0] in members && members == [members[0]] + members[1..];
      SkippedAre(h, v, x, members[1..]);
      DocumentOfText(h, v, x, members[0]);
    }
  }

  lemma NoDocumentsOf(v: Store, x: Texts)
    ensures DocumentsOf(v, x, [], [])
  {
  }

  lemma SkipsMember(v: Store, x: Texts, f: Id, rest: seq<Id>, docs: seq<Document>)
    requires TextOf(v, x, f).None? && DocumentsOf(v, x, rest, docs)
    ensures DocumentsOf(v, x, [f] + rest, docs)
  {
    hide TextOf, Terms;
  }

  lemma AddsMember(v: Store, x: Texts, f: Id, rest: seq<Id>, docs: seq<Document>)
    requires TextOf(v, x, f).Some? && DocumentsOf(v, x, rest, docs) && f !in rest
    ensures DocumentsOf(v, x, [f] + rest, [Document(f, Terms(x, TextOf(v, x, f).value))] + docs)
  {
    hide TextOf, Terms;
    var all := [Document(f, Terms(x, TextOf(v, x, f).value))] + docs;
    forall i, j | 0 <= i < j < |all| ensures all[i].file != all[j].file {
      assert all[j] == docs[j - 1];
      if i > 0 { assert all[i] == docs[i - 1]; }
    }
    forall g | g in [f] + rest && TextOf(v, x, g).Some? ensures exists i :: 0 <= i < |all| && all[i].file == g {
      if g == f {
        assert all[0].file == f;
      } else {
        var i :| 0 <= i < |docs| && docs[i].file == g;
        assert all[i + 1] == docs[i];
      }
    }
  }

  lemma {:induction false} ScoredDistinct(query: seq<Term>, docs: seq<Document>)
    requires forall i, j :: 0 <= i < j < |docs| ==> docs[i].file != docs[j].file
    ensures FilesDistinct(Scored(query, docs))
  {
    hide Score;
    if docs != [] {
      ScoredDistinct(query, docs[1..]);
      var rest := Scored(query, docs[1..]);
      forall i | 0 <= i < |rest| ensures rest[i].file != docs[0].file {
        ScoredExactly(query, docs[1..], rest[i]);
        assert rest[i] in rest;
        var j :| 0 <= j < |docs[1..]| && docs[1..][j].file == rest[i].file;
        assert docs[1..][j] == docs[j + 1];
      }
    }
  }

  function FileKey(): Hit -> seq<int> {
    (hit: Hit) => [hit.file]
  }

  lemma ReorderedDistinct(a: seq<Hit>, b: seq<Hit>)
    requires FilesDistinct(a) && multiset(a) == multiset(b)
    ensures FilesDistinct(b)
  {
    assert Sorting.KeysDistinct(a, FileKey()) by {
      forall i, j | 0 <= i < j < |a| ensures FileKey()(a[i]) != FileKey()(a[j]) {
        assert FileKey()(a[i])[0] == a[i].file && FileKey()(a[j])[0] == a[j].file;
      }
    }
    Sorting.KeysDistinctByMultiset(a, b, FileKey());
    forall i, j | 0 <= i < j < |b| ensures b[i].file != b[j].file {
      assert FileKey()(b[i]) != FileKey()(b[j]);
    }
  }

  /** Every matching member, best first. */
  ghost predicate AllMatches(v: Store, x: Texts, members: seq<Id>, query: string, hits: seq<Hit>) {
    && InRankOrder(hits) && FilesDistinct(hits)
    && (forall hit :: hit in hits <==>
          hit.file in Matching(v, x, members, query) && hit.score == FileScore(v, x, query, hit.file))
  }

  lemma ScoredMatches(v: Store, x: Texts, members: seq<Id>, query: string, docs: seq<Document>, hit: Hit)
    requires DocumentsOf(v, x, members, docs)
    ensures hit in Scored(Terms(x, query), docs) <==>
      hit.file in Matching(v, x, members, query) && hit.score == FileScore(v, x, query, hit.file)
  {
    hide TextOf, Score, Similarity, TermCounts;
    ScoredExactly(Terms(x, query), docs, hit);
    forall i | 0 <= i < |docs| ensures Score(Terms(x, query), docs[i].terms) == FileScore(v, x, query, docs[i].file) {
      ScoreIsSimilarity(Tokens(x.normalize(query), x.isToken),
        Tokens(x.normalize(TextOf(v, x, docs[i].file).value), x.isToken));
    }
    if hit.file in Matching(v, x, members, query) {
      var i :| 0 <= i < |docs| && docs[i].file == hit.file;
      assert Score(Terms(x, query), docs[i].terms) == FileScore(v, x, query, hit.file);
    }
  }

  lemma RankedMatches(h: Hashes, v: Store, x: Texts, members: seq<Id>, query: string)
    requires StrictlyAscending(members) && forall f :: f in members ==> Readable(h, v, f)
    ensures AllMatches(v, x, members, query, Ranked(Scored(Terms(x, query), Documents(h, v, x, members))))
  {
    hide Readable, TextOf, Terms, Score, Matching, FileScore, Documents, Scored, Ranked;
    var docs := Documents(h, v, x, members);
    DocumentsAre(h, v, x, members);
    var scored := Scored(Terms(x, query), docs);
    ScoredDistinct(Terms(x, query), docs);
    RankedRanks(scored);
    ReorderedDistinct(scored, Ranked(scored));
    forall hit ensures hit in Ranked(scored) <==>
      hit.file in Matching(v, x, members, query) && hit.score == FileScore(v, x, query, hit.file)
    {
      ScoredMatches(v, x, members, query, docs, hit);
      assert hit in multiset(Ranked(scored)) <==> hit in multiset(scored);
    }
  }

  lemma {:induction false} DistinctCount(hits: seq<Hit>, files: set<Id>)
    requires FilesDistinct(hits)
    requires forall f :: f in files <==> Lists(hits, f)
    ensures |hits| == |files|
  {
    if hits == [] {
      assert files == {};
    } else {
      var rest, less := hits[1..], files - {hits[0].file};
      forall f ensures f in less <==> Lists(rest, f) {
        if f in less {
          var i :| 0 <= i < |hits| && hits[i].file == f;
          assert rest[i - 1].file == f;
        }
        if Lists(rest, f) {
          var i :| 0 <= i < |rest| && rest[i].file == f;
          assert hits[i + 1].file == f;
        }
      }
      assert hits[0].file in files;
      DistinctCount(rest, less);
    }
  }

  /** Cutting the ranked matches at the limit leaves the best of them. */
  lemma TruncatedAnswers(v: Store, x: Texts, members: seq<Id>, query: string, limit: nat, all: seq<Hit>)
    requires AllMatches(v, x, members, query, all)
    ensures Answers(v, x, members, query, limit, Truncated(all, limit))
  {
    hide Matching, FileScore, Before;
    var matching, hits := Matching(v, x, members, query), Truncated(all, limit);
    forall f ensures f in matching <==> Lists(all, f) {
      if f in matching {
        assert Hit(f, FileScore(v, x, query, f)) in all;
      }
      if i :| 0 <= i < |all| && all[i].file == f {
        assert all[i] in all;
      }
    }
    DistinctCount(all, matching);
    forall i | 0 <= i < |hits|
      ensures hits[i].file in matching && hits[i].score == FileScore(v, x, query, hits[i].file)
    {
      assert hits[i] == all[i] && all[i] in all;
    }
    forall f, i | f in matching && !Lists(hits, f) && 0 <= i < |hits|
      ensures Before(hits[i], Hit(f, FileScore(v, x, query, f)))
    {
      var j :| 0 <= j < |all| && all[j] == Hit(f, FileScore(v, x, query, f));
      assert forall k :: 0 <= k < |hits| ==> hits[k].file != f;
      assert Before(all[i], all[j]);
    }
  }

  lemma BruteForceAnswers(h: Hashes, v: Store, x: Texts, members: seq<Id>, query: string, limit: nat)
    requires StrictlyAscending(members) && forall f :: f in members ==> Readable(h, v, f)
    ensures Answers(v, x, members, query, limit, BruteForce(h, v, x, members, query, limit))
  {
    hide Readable, Terms, Scored, Ranked, Documents, Answers, AllMatches, Truncated;
    RankedMatches(h, v, x, members, query);
    TruncatedAnswers(v, x, members, query, limit, Ranked(Scored(Terms(x, query), Documents(h, v, x, members))));
  }

  // ----- and nothing else does -----

  function FilesOf(hits: seq<Hit>): (files: set<Id>)
    ensures forall f :: f in files <==> Lists(hits, f)
  {
    var files := set i | 0 <= i < |hits| :: hits[i].file;
    files
  }

  /** Of two lists of one length, a File of the first that the second lacks makes room for another. */
  lemma NoRoomForOthers(a: seq<Hit>, b: seq<Hit>, f: Id)
    requires FilesDistinct(a) && FilesDistinct(b) && |a| == |b| && Lists(a, f)
    requires forall g :: Lists(b, g) ==> Lists(b, f) || Lists(a, g)
    ensures Lists(b, f)
  {
    DistinctCount(a, FilesOf(a));
    DistinctCount(b, FilesOf(b));
    if f !in FilesOf(b) {
      CountSubset(FilesOf(b), FilesOf(a) - {f});
    }
  }

  lemma {:induction false} CountSubset(s: set<Id>, t: set<Id>)
    requires s <= t
    ensures |s| <= |t|
  {
    if x :| x in s { CountSubset(s - {x}, t - {x}); }
  }

  /** Two Files cannot each rank behind the other. */
  lemma OneIsListedByBoth(v: Store, x: Texts, members: seq<Id>, query: string, limit: nat, a: seq<Hit>, b: seq<Hit>,
      i: nat, j: nat)
    requires Answers(v, x, members, query, limit, a) && Answers(v, x, members, query, limit, b)
    requires i < |a| && j < |b|
    ensures Lists(b, a[i].file) || Lists(a, b[j].file)
  {
    hide Matching, FileScore;
    assert Lists(a, a[i].file) && Lists(b, b[j].file);
  }

  lemma SameFilesListed(v: Store, x: Texts, members: seq<Id>, query: string, limit: nat, a: seq<Hit>, b: seq<Hit>,
      f: Id)
    requires Answers(v, x, members, query, limit, a) && Answers(v, x, members, query, limit, b) && Lists(a, f)
    ensures Lists(b, f)
  {
    hide Matching, FileScore, Before;
    var i :| 0 <= i < |a| && a[i].file == f;
    forall g | Lists(b, g) ensures Lists(b, f) || Lists(a, g) {
      var j :| 0 <= j < |b| && b[j].file == g;
      OneIsListedByBoth(v, x, members, query, limit, a, b, i, j);
    }
    NoRoomForOthers(a, b, f);
  }

  lemma FirstIsBest(a: seq<Hit>, i: nat)
    requires InRankOrder(a) && i < |a|
    ensures Before(a[0], a[i])
  {
  }

  lemma {:induction false} RankOrderUnique(a: seq<Hit>, b: seq<Hit>)
    requires InRankOrder(a) && InRankOrder(b) && FilesDistinct(a) && FilesDistinct(b)
    requires forall hit :: hit in a <==> hit in b
    ensures a == b
  {
    if b != [] { assert b[0] in a; }
    if a != [] {
      assert a[0] in b && b[0] in a;
      var i :| 0 <= i < |a| && a[i] == b[0];
      var j :| 0 <= j < |b| && b[j] == a[0];
      FirstIsBest(a, i);
      FirstIsBest(b, j);
      assert a[0] == b[0];
      TailHits(a);
      TailHits(b);
      RankOrderUnique(a[1..], b[1..]);
      assert a == [a[0]] + a[1..] && b == [b[0]] + b[1..];
    }
  }

  lemma TailHits(a: seq<Hit>)
    requires FilesDistinct(a) && a != []
    ensures forall hit :: hit in a[1..] <==> hit in a && hit != a[0]
  {
    assert a == [a[0]] + a[1..];
    assert forall i :: 0 <= i < |a[1..]| ==> a[1..][i] == a[i + 1];
  }

  /** A query has one answer. */
  lemma AnswersUnique(v: Store, x: Texts, members: seq<Id>, query: string, limit: nat, a: seq<Hit>, b: seq<Hit>)
    requires Answers(v, x, members, query, limit, a) && Answers(v, x, members, query, limit, b)
    ensures a == b
  {
    hide Matching, FileScore;
    forall hit ensures hit in a <==> hit in b {
      if hit in a {
        SameFilesListed(v, x, members, query, limit, a, b, hit.file);
      }
      if hit in b {
        SameFilesListed(v, x, members, query, limit, b, a, hit.file);
      }
    }
    RankOrderUnique(a, b);
  }
}
