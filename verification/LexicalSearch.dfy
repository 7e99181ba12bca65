/** Tokens, term maps, cosine scores and ranking of the lexical baseline index
    (`storage/control_store.py`).  Scores are squared cosines, exact over the rationals: all terms are
    positive, so squaring keeps the order the code sorts by. */
module LexicalSearch {
  import opened Common
  import opened Vault
  import Sorting

  // ----- tokens: the maximal runs of token characters -----

  datatype Span = Span(start: nat, end: nat)

  ghost predicate IsRun(s: string, isToken: char -> bool, i: int, j: int) {
    && 0 <= i < j <= |s|
    && (forall k :: i <= k < j ==> isToken(s[k]))
    && (i == 0 || !isToken(s[i - 1]))
    && (j == |s| || !isToken(s[j]))
  }

  /** The runs closed within the first `k` characters, and where the open run starts. */
  function Scan(s: string, isToken: char -> bool, k: nat): (r: (seq<Span>, nat))
    requires k <= |s|
    ensures r.1 <= k && forall x :: x in r.0 ==> x.start < x.end <= k
  {
    if k == 0 then ([], 0)
    else
      var (closed, start) := Scan(s, isToken, k - 1);
      if isToken(s[k - 1]) then (closed, start)
      else if start < k - 1 then (closed + [Span(start, k - 1)], k)
      else (closed, k)
  }

  function Spans(s: string, isToken: char -> bool): (r: seq<Span>)
    ensures forall x :: x in r ==> x.start < x.end <= |s|
  {
    var (closed, start) := Scan(s, isToken, |s|);
    if start < |s| then closed + [Span(start, |s|)] else closed
  }

  function Slices(s: string, spans: seq<Span>): seq<string>
    requires forall x :: x in spans ==> x.start < x.end <= |s|
  {
    seq(|spans|, i requires 0 <= i < |spans| => s[spans[i].start..spans[i].end])
  }

  function Tokens(s: string, isToken: char -> bool): seq<string> {
    Slices(s, Spans(s, isToken))
  }

  lemma {:induction false} ScanFindsRuns(s: string, isToken: char -> bool, k: nat)
    requires k <= |s|
    ensures
      var (closed, start) := Scan(s, isToken, k);
      && (forall m :: start <= m < k ==> isToken(s[m]))
      && (start == 0 || !isToken(s[start - 1]))
      && (forall i: nat, j: nat :: Span(i, j) in closed <==> IsRun(s, isToken, i, j) && j < k)
  {
    if k > 0 {
      ScanFindsRuns(s, isToken, k - 1);
      var (closed, start) := Scan(s, isToken, k - 1);
      var (closed', start') := Scan(s, isToken, k);
      forall i: nat, j: nat ensures Span(i, j) in closed' <==> IsRun(s, isToken, i, j) && j < k {
        if IsRun(s, isToken, i, j) && j == k - 1 {
          RunEndsOpen(s, isToken, start, i, j);
        }
      }
    }
  }

  /** A run that ends where the scan stands is the open run. */
  lemma RunEndsOpen(s: string, isToken: char -> bool, start: nat, i: int, j: int)
    requires IsRun(s, isToken, i, j) && start <= j
    requires forall m :: start <= m < j ==> isToken(s[m])
    requires start == 0 || !isToken(s[start - 1])
    ensures start == i
  {
  }

  /** The tokens are exactly the maximal runs of token characters, each once and in order. */
  lemma SpansAreTheRuns(s: string, isToken: char -> bool)
    ensures forall i: nat, j: nat :: Span(i, j) in Spans(s, isToken) <==> IsRun(s, isToken, i, j)
    ensures forall a, b :: 0 <= a < b < |Spans(s, isToken)| ==> Spans(s, isToken)[a].end < Spans(s, isToken)[b].start
  {
    ScanFindsRuns(s, isToken, |s|);
    ScanOrdered(s, isToken, |s|);
    var (closed, start) := Scan(s, isToken, |s|);
    forall i: nat, j: nat ensures Span(i, j) in Spans(s, isToken) <==> IsRun(s, isToken, i, j) {
      if IsRun(s, isToken, i, j) && j == |s| { RunEndsOpen(s, isToken, start, i, j); }
    }
  }

  lemma {:induction false} ScanOrdered(s: string, isToken: char -> bool, k: nat)
    requires k <= |s|
    ensures
      var (closed, start) := Scan(s, isToken, k);
      && (forall x :: x in closed ==> x.end < start)
      && forall a, b :: 0 <= a < b < |closed| ==> closed[a].end < closed[b].start
  {
    if k > 0 { ScanOrdered(s, isToken, k - 1); }
  }

  /** `tokenize_text` on normalized text. */
  method Tokenize(s: string, isToken: char -> bool) returns (tokens: seq<string>)
    ensures tokens == Tokens(s, isToken)
  {
    tokens := [];
    var current: string := "";
    for k := 0 to |s|
      invariant tokens == Slices(s, Scan(s, isToken, k).0)
      invariant current == s[Scan(s, isToken, k).1..k]
    {
      if isToken(s[k]) {
        current := current + [s[k]];
      } else if current != "" {
        tokens := tokens + [current];
        current := "";
      }
    }
    if current != "" {
      tokens := tokens + [current];
    }
  }

  // ----- term maps -----

  datatype Term = Term(word: string, count: nat)

  function CodePoints(): string -> seq<int> {
    (w: string) => seq(|w|, i requires 0 <= i < |w| => w[i] as int)
  }

  function Dedup(ws: seq<string>): seq<string> {
    if ws == [] then []
    else
      var rest := Dedup(ws[..|ws| - 1]);
      var w := ws[|ws| - 1];
      if w in rest then rest else rest + [w]
  }

  /** `_token_counts`: every distinct token once, in bytewise order, with its number of occurrences. */
  function TermCounts(tokens: seq<string>): seq<Term> {
    var words := SortedWords(tokens);
    seq(|words|, i requires 0 <= i < |words| => Term(words[i], multiset(tokens)[words[i]]))
  }

  ghost predicate WordsDistinct(ts: seq<Term>) {
    forall i, j :: 0 <= i < j < |ts| ==> ts[i].word != ts[j].word
  }

  lemma {:induction false} DedupKeeps(ws: seq<string>)
    ensures Distinct(Dedup(ws)) && forall w :: w in Dedup(ws) <==> w in ws
  {
    if ws != [] {
      DedupKeeps(ws[..|ws| - 1]);
      assert ws == ws[..|ws| - 1] + [ws[|ws| - 1]];
    }
  }

  lemma CodePointsInjective(a: string, b: string)
    requires CodePoints()(a) == CodePoints()(b)
    ensures a == b
  {
    assert |CodePoints()(a)| == |a| && |CodePoints()(b)| == |b|;
    forall i | 0 <= i < |a| ensures a[i] == b[i] {
      assert CodePoints()(a)[i] == a[i] as int && CodePoints()(b)[i] == b[i] as int;
    }
  }

  function SortedWords(tokens: seq<string>): seq<string> {
    Sorting.SortBy(Dedup(tokens), CodePoints())
  }

  lemma SortedWordsSound(tokens: seq<string>)
    ensures forall i, j :: 0 <= i < j < |SortedWords(tokens)| ==> SortedWords(tokens)[i] != SortedWords(tokens)[j]
    ensures forall w :: w in SortedWords(tokens) <==> w in tokens
  {
    var ds, words := Dedup(tokens), SortedWords(tokens);
    DedupKeeps(tokens);
    Sorting.SortSorts(ds, CodePoints());
    DistinctKeys(ds);
    Sorting.KeysDistinctByMultiset(ds, words, CodePoints());
    forall i, j | 0 <= i < j < |words| ensures words[i] != words[j] {
      assert CodePoints()(words[i]) != CodePoints()(words[j]);
    }
    forall w ensures w in words <==> w in ds {
      assert w in words <==> w in multiset(words);
      assert w in ds <==> w in multiset(ds);
    }
  }

  lemma DistinctKeys(ws: seq<string>)
    requires Distinct(ws)
    ensures Sorting.KeysDistinct(ws, CodePoints())
  {
    forall i, j | 0 <= i < j < |ws| ensures CodePoints()(ws[i]) != CodePoints()(ws[j]) {
      if CodePoints()(ws[i]) == CodePoints()(ws[j]) { CodePointsInjective(ws[i], ws[j]); }
    }
  }

  /** A term map names every token once and counts its occurrences. */
  lemma TermCountsSound(tokens: seq<string>)
    ensures WordsDistinct(TermCounts(tokens))
    ensures forall t :: t in TermCounts(tokens) ==> t.count == multiset(tokens)[t.word] > 0
    ensures forall w :: w in tokens ==> Term(w, multiset(tokens)[w]) in TermCounts(tokens)
  {
    SortedWordsSound(tokens);
    var words, ts := SortedWords(tokens), TermCounts(tokens);
    forall t | t in ts ensures t.count == multiset(tokens)[t.word] > 0 {
      var i :| 0 <= i < |ts| && ts[i] == t;
      assert words[i] in tokens;
    }
    forall w | w in tokens ensures Term(w, multiset(tokens)[w]) in ts {
      assert w in words;
      var i :| 0 <= i < |words| && words[i] == w;
      assert ts[i] == Term(w, multiset(tokens)[w]);
    }
  }

  // ----- cosine -----

  function Get(ts: seq<Term>, w: string): nat {
    if ts == [] then 0 else if ts[0].word == w then ts[0].count else Get(ts[1..], w)
  }

  function Dot(left: seq<Term>, right: seq<Term>): nat {
    if left == [] then 0 else left[0].count * Get(right, left[0].word) + Dot(left[1..], right)
  }

  function Norm(ts: seq<Term>): nat {
    if ts == [] then 0 else ts[0].count * ts[0].count + Norm(ts[1..])
  }

  /** The squares of `right`'s counts at the words of `left`. */
  function NormOver(left: seq<Term>, right: seq<Term>): nat {
    if left == [] then 0 else Get(right, left[0].word) * Get(right, left[0].word) + NormOver(left[1..], right)
  }

  lemma {:induction false} SumOfSquares(left: seq<Term>, right: seq<Term>, x: int, y: int)
    ensures x * x * Norm(left) - 2 * x * y * Dot(left, right) + y * y * NormOver(left, right) >= 0
  {
    if left != [] {
      SumOfSquares(left[1..], right, x, y);
      var a, b := left[0].count, Get(right, left[0].word);
      var n, d, m := Norm(left[1..]), Dot(left[1..], right), NormOver(left[1..], right);
      SquareStep(x, y, a, b, n, d, m);
    }
  }

  lemma SquareStep(x: int, y: int, a: int, b: int, n: int, d: int, m: int)
    requires x * x * n - 2 * x * y * d + y * y * m >= 0
    ensures x * x * (a * a + n) - 2 * x * y * (a * b + d) + y * y * (b * b + m) >= 0
  {
    var z := x * a - y * b;
    assert z * z == x * x * (a * a) - 2 * x * y * (a * b) + y * y * (b * b) by {
      SquareOfDifference(x * a, y * b);
      Rearrange(x, a);
      Rearrange(y, b);
      CrossTerm(x, a, y, b);
    }
    NonNegativeSquare(z);
    assert x * x * (a * a + n) == x * x * (a * a) + x * x * n;
    assert 2 * x * y * (a * b + d) == 2 * x * y * (a * b) + 2 * x * y * d;
    assert y * y * (b * b + m) == y * y * (b * b) + y * y * m;
  }

  lemma SquareOfDifference(p: int, q: int)
    ensures (p - q) * (p - q) == p * p - 2 * (p * q) + q * q
  {
  }

  lemma Rearrange(x: int, a: int)
    ensures (x * a) * (x * a) == x * x * (a * a)
  {
    assert (x * a) * (x * a) == x * (a * (x * a)) == x * (x * (a * a));
  }

  lemma CrossTerm(x: int, a: int, y: int, b: int)
    ensures 2 * ((x * a) * (y * b)) == 2 * x * y * (a * b)
  {
    assert (x * a) * (y * b) == x * (a * (y * b)) == x * (y * (a * b));
    assert 2 * x * y * (a * b) == 2 * (x * (y * (a * b)));
  }

  lemma NonNegativeSquare(z: int)
    ensures z * z >= 0
  {
  }

  lemma {:induction false} GetAbsent(ts: seq<Term>, w: string)
    requires forall i :: 0 <= i < |ts| ==> ts[i].word != w
    ensures Get(ts, w) == 0
  {
    if ts != [] { GetAbsent(ts[1..], w); }
  }

  lemma {:induction false} NormOverSplits(left: seq<Term>, right: seq<Term>)
    requires right != [] && WordsDistinct(left) && WordsDistinct(right)
    ensures NormOver(left, right) <= NormOver(left, right[1..]) + right[0].count * right[0].count
    ensures (forall i :: 0 <= i < |left| ==> left[i].word != right[0].word)
      ==> NormOver(left, right) == NormOver(left, right[1..])
  {
    if left != [] {
      NormOverSplits(left[1..], right);
      GetAbsent(right[1..], right[0].word);
    }
  }

  lemma {:induction false} NormOverBounded(left: seq<Term>, right: seq<Term>)
    requires WordsDistinct(left) && WordsDistinct(right)
    ensures NormOver(left, right) <= Norm(right)
  {
    if right == [] {
      NormOverEmpty(left);
    } else {
      NormOverSplits(left, right);
      NormOverBounded(left, right[1..]);
    }
  }

  lemma {:induction false} NormOverEmpty(left: seq<Term>)
    ensures NormOver(left, []) == 0
  {
    if left != [] { NormOverEmpty(left[1..]); }
  }

  lemma {:induction false} ZeroNormOver(left: seq<Term>, right: seq<Term>)
    requires NormOver(left, right) == 0
    ensures Dot(left, right) == 0
  {
    if left != [] {
      var b := Get(right, left[0].word);
      assert b * b == 0 && b == 0;
      ZeroNormOver(left[1..], right);
    }
  }

  /** Cauchy-Schwarz for term maps: a cosine is never above one. */
  lemma CauchySchwarz(left: seq<Term>, right: seq<Term>)
    requires WordsDistinct(left) && WordsDistinct(right)
    ensures Dot(left, right) * Dot(left, right) <= Norm(left) * Norm(right)
  {
    var d, n, m := Dot(left, right), Norm(left), NormOver(left, right);
    NormOverBounded(left, right);
    if m == 0 {
      ZeroNormOver(left, right);
    } else {
      SumOfSquares(left, right, m, d);
      QuadraticBound(m, d, n);
    }
    MonotoneProduct(n, m, Norm(right));
  }

  lemma QuadraticBound(m: int, d: int, n: int)
    requires m > 0 && m * m * n - 2 * m * d * d + d * d * m >= 0
    ensures d * d <= n * m
  {
    assert m * m * n - 2 * m * d * d + d * d * m == m * (m * n - d * d) by {
      assert m * (m * n - d * d) == m * (m * n) - m * (d * d);
      assert m * m * n == m * (m * n) && 2 * m * d * d == 2 * (m * (d * d)) && d * d * m == m * (d * d);
    }
    Cancel(m, m * n - d * d);
  }

  lemma Cancel(m: int, x: int)
    requires m > 0 && m * x >= 0
    ensures x >= 0
  {
  }

  lemma MonotoneProduct(n: nat, a: nat, b: nat)
    requires a <= b
    ensures n * a <= n * b
  {
  }

  // ----- ranking -----

  datatype Hit = Hit(file: Id, score: real)

  /** The squared cosine; zero when either side is empty or nothing matches. */
  function Score(query: seq<Term>, doc: seq<Term>): real {
    var dot := Dot(query, doc);
    if dot == 0 || Norm(query) * Norm(doc) == 0 then 0.0
    else (dot * dot) as real / (Norm(query) * Norm(doc)) as real
  }

  lemma ScoreAtMostOne(query: seq<Term>, doc: seq<Term>)
    requires WordsDistinct(query) && WordsDistinct(doc)
    ensures 0.0 <= Score(query, doc) <= 1.0
  {
    CauchySchwarz(query, doc);
    var dot, nn := Dot(query, doc), Norm(query) * Norm(doc);
    if dot != 0 && nn != 0 {
      assert dot * dot >= 0;
      RatioAtMostOne((dot * dot) as real, nn as real);
    }
  }

  lemma RatioAtMostOne(a: real, b: real)
    requires 0.0 <= a <= b && b > 0.0
    ensures 0.0 <= a / b <= 1.0
  {
  }

  /** Higher score first; equal scores by File identity. */
  predicate Before(a: Hit, b: Hit) {
    a.score > b.score || (a.score == b.score && a.file <= b.file)
  }

  function InsertHit(x: Hit, s: seq<Hit>): seq<Hit> {
    if s == [] then [x] else if Before(x, s[0]) then [x] + s else [s[0]] + InsertHit(x, s[1..])
  }

  function Ranked(s: seq<Hit>): seq<Hit> {
    if s == [] then [] else InsertHit(s[0], Ranked(s[1..]))
  }

  ghost predicate InRankOrder(s: seq<Hit>) {
    forall i, j :: 0 <= i < j < |s| ==> Before(s[i], s[j])
  }

  lemma {:induction false} InsertHitElements(x: Hit, s: seq<Hit>)
    ensures multiset(InsertHit(x, s)) == multiset{x} + multiset(s)
  {
    if s != [] && !Before(x, s[0]) {
      InsertHitElements(x, s[1..]);
      assert s == [s[0]] + s[1..];
    }
  }

  lemma InsertHitMembers(x: Hit, s: seq<Hit>, y: Hit)
    requires y in InsertHit(x, s)
    ensures y == x || y in s
  {
    InsertHitElements(x, s);
    assert y in multiset(InsertHit(x, s));
  }

  lemma ConsInRankOrder(x: Hit, s: seq<Hit>)
    requires InRankOrder(s) && forall y :: y in s ==> Before(x, y)
    ensures InRankOrder([x] + s)
  {
  }

  lemma {:induction false} InsertHitRanks(x: Hit, s: seq<Hit>)
    requires InRankOrder(s)
    ensures InRankOrder(InsertHit(x, s))
  {
    if s != [] && Before(x, s[0]) {
      forall y | y in s ensures Before(x, y) {
        var j :| 0 <= j < |s| && s[j] == y;
        assert j == 0 || Before(s[0], s[j]);
      }
      ConsInRankOrder(x, s);
    } else if s != [] {
      InsertHitRanks(x, s[1..]);
      forall y | y in InsertHit(x, s[1..]) ensures Before(s[0], y) {
        InsertHitMembers(x, s[1..], y);
      }
      ConsInRankOrder(s[0], InsertHit(x, s[1..]));
    }
  }

  /** Ranking only reorders, best first. */
  lemma {:induction false} RankedRanks(s: seq<Hit>)
    ensures InRankOrder(Ranked(s)) && multiset(Ranked(s)) == multiset(s)
  {
    if s != [] {
      RankedRanks(s[1..]);
      InsertHitRanks(s[0], Ranked(s[1..]));
      InsertHitElements(s[0], Ranked(s[1..]));
      assert s == [s[0]] + s[1..];
    }
  }

  // ----- documents of a snapshot -----

  /** The text functions of the host: UTF-8 decoding, normalization and the token character class. */
  datatype Texts = Texts(decode: Bytes -> Option<string>, normalize: string -> string, isToken: char -> bool)

  function Terms(x: Texts, text: string): seq<Term> {
    TermCounts(Tokens(x.normalize(text), x.isToken))
  }

  datatype Document = Document(file: Id, terms: seq<Term>)

  /** The document of one File, unless it is not UTF-8 text. */
  function DocumentOf(h: Hashes, v: Store, x: Texts, file: Id): seq<Document> {
    if !Readable(h, v, file) then []
    else
      match x.decode(v.objects[v.files[file].basis.objectId])
      case None => []
      case Some(text) => [Document(file, Terms(x, text))]
  }

  /** One document per member that holds UTF-8 text, in member order. */
  function Documents(h: Hashes, v: Store, x: Texts, members: seq<Id>): seq<Document> {
    if members == [] then [] else DocumentOf(h, v, x, members[0]) + Documents(h, v, x, members[1..])
  }

  /** The members that do not hold UTF-8 text, in member order. */
  function Skipped(h: Hashes, v: Store, x: Texts, members: seq<Id>): seq<Id> {
    if members == [] then []
    else if Readable(h, v, members[0]) && DocumentOf(h, v, x, members[0]) == [] then
      [members[0]] + Skipped(h, v, x, members[1..])
    else Skipped(h, v, x, members[1..])
  }

  lemma SkippedStep(h: Hashes, v: Store, x: Texts, members: seq<Id>, i: nat, skipped: seq<Id>)
    requires i < |members| && Readable(h, v, members[i])
    ensures skipped + Skipped(h, v, x, members[i..]) ==
      (skipped + if DocumentOf(h, v, x, members[i]) == [] then [members[i]] else [])
      + Skipped(h, v, x, members[i + 1..])
  {
    hide DocumentOf, Readable;
    assert members[i..][1..] == members[i + 1..];
    assert skipped + ([members[i]] + Skipped(h, v, x, members[i + 1..])) ==
      (skipped + [members[i]]) + Skipped(h, v, x, members[i + 1..]);
    assert skipped + [] == skipped;
  }

  lemma DocumentsStep(h: Hashes, v: Store, x: Texts, members: seq<Id>, i: nat, done: seq<Document>)
    requires i < |members|
    ensures done + Documents(h, v, x, members[i..]) == (done + DocumentOf(h, v, x, members[i]))
      + Documents(h, v, x, members[i + 1..])
  {
    hide DocumentOf;
    assert members[i..][1..] == members[i + 1..];
    var d, rest := DocumentOf(h, v, x, members[i]), Documents(h, v, x, members[i + 1..]);
    assert done + (d + rest) == (done + d) + rest;
  }

  lemma NoDocuments(h: Hashes, v: Store, x: Texts, members: seq<Id>)
    ensures Documents(h, v, x, members[|members|..]) == [] && Skipped(h, v, x, members[|members|..]) == []
    ensures members[0..] == members
  {
  }

  function Scored(query: seq<Term>, docs: seq<Document>): seq<Hit> {
    if docs == [] then []
    else
      var score := Score(query, docs[0].terms);
      (if score > 0.0 then [Hit(docs[0].file, score)] else []) + Scored(query, docs[1..])
  }

  function Truncated(s: seq<Hit>, limit: nat): seq<Hit> {
    if |s| <= limit then s else s[..limit]
  }

  /** Search without any index: score, filter, rank and truncate the Files themselves. */
  function BruteForce(h: Hashes, v: Store, x: Texts, members: seq<Id>, query: string, limit: nat): seq<Hit> {
    Truncated(Ranked(Scored(Terms(x, query), Documents(h, v, x, members))), limit)
  }

  /** A hit's score is that of the File it names, and every matching File is a hit. */
  lemma {:induction false} ScoredExactly(query: seq<Term>, docs: seq<Document>, hit: Hit)
    ensures hit in Scored(query, docs) <==>
      hit.score > 0.0 && exists i ::
        0 <= i < |docs| && docs[i].file == hit.file && Score(query, docs[i].terms) == hit.score
  {
    if docs != [] {
      ScoredExactly(query, docs[1..], hit);
      if exists i :: 0 <= i < |docs| && docs[i].file == hit.file && Score(query, docs[i].terms) == hit.score {
        var i :| 0 <= i < |docs| && docs[i].file == hit.file && Score(query, docs[i].terms) == hit.score;
        if i > 0 { assert docs[1..][i - 1] == docs[i]; }
      }
      if exists i ::
        0 <= i < |docs[1..]| && docs[1..][i].file == hit.file && Score(query, docs[1..][i].terms) == hit.score
      {
        var i :| 0 <= i < |docs[1..]| && docs[1..][i].file == hit.file && Score(query, docs[1..][i].terms) == hit.score;
        assert docs[i + 1] == docs[1..][i];
      }
    }
  }

  lemma {:induction false} DocumentsGrow(h: Hashes, v: Store, v': Store, x: Texts, members: seq<Id>)
    requires Grows(v, v') && forall m :: m in members ==> Readable(h, v, m)
    ensures Documents(h, v', x, members) == Documents(h, v, x, members)
  {
    if members != [] {
      assert Readable(h, v, members[0]);
      DocumentsGrow(h, v, v', x, members[1..]);
    }
  }
}
