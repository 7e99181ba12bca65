/** Council arithmetic as the NEXUS adapter recomputes it: tally, threshold, label, minority reports, and
    sealed ballots (`adapters/nexus.py`). */
module Council {
  import opened Common

  datatype Ballot = Ballot(member: string, choice: string, rationale: string)

  datatype Label = NoConsensus | MajorityNoConsensus | Consensus | StrongConsensus | Unanimous {
    function Rank(): nat {
      match this
      case NoConsensus => 0
      case MajorityNoConsensus => 1
      case Consensus => 2
      case StrongConsensus => 3
      case Unanimous => 4
    }
  }

  datatype Threshold = Threshold(numerator: nat, denominator: nat) {
    predicate Valid() { 0 < numerator <= denominator }
  }

  const NO_SINGLE_DISPOSITION := "NO_SINGLE_DISPOSITION"
  const NO_CONSENSUS := "NO_CONSENSUS"

  // ----- the tally -----

  function Choices(ballots: seq<Ballot>): seq<string> {
    seq(|ballots|, i requires 0 <= i < |ballots| => ballots[i].choice)
  }

  function Votes(choices: seq<string>, c: string): nat {
    multiset(choices)[c]
  }

  function Most(choices: seq<string>, m: multiset<string>): nat {
    if choices == [] then 0
    else
      var rest := Most(choices[1..], m);
      if m[choices[0]] > rest then m[choices[0]] else rest
  }

  function TopCount(choices: seq<string>): nat {
    Most(choices, multiset(choices))
  }

  function Winners(choices: seq<string>): set<string> {
    set c | c in choices && Votes(choices, c) == TopCount(choices)
  }

  predicate SingleWinner(choices: seq<string>) {
    |Winners(choices)| == 1
  }

  lemma OnlyMember(s: set<string>, x: string, y: string)
    requires |s| == 1 && x in s && y in s
    ensures x == y
  {
    assert |s - {x}| == 0;
  }

  function Winner(choices: seq<string>): (w: string)
    requires SingleWinner(choices)
    ensures w in choices && Votes(choices, w) == TopCount(choices)
  {
    assert Winners(choices) != {};
    assert forall x, y :: x in Winners(choices) && y in Winners(choices) ==> x == y by {
      forall x, y | x in Winners(choices) && y in Winners(choices) ensures x == y {
        OnlyMember(Winners(choices), x, y);
      }
    }
    var w :| w in Winners(choices);
    w
  }

  function Disposition(choices: seq<string>): string {
    if SingleWinner(choices) then Winner(choices) else NO_SINGLE_DISPOSITION
  }

  predicate ThresholdMet(choices: seq<string>, t: Threshold) {
    SingleWinner(choices) && TopCount(choices) * t.denominator >= |choices| * t.numerator
  }

  function LabelOf(choices: seq<string>, t: Threshold): Label {
    if SingleWinner(choices) && TopCount(choices) == |choices| then Unanimous
    else if ThresholdMet(choices, t) && TopCount(choices) * 5 >= |choices| * 4 then StrongConsensus
    else if ThresholdMet(choices, t) then Consensus
    else if SingleWinner(choices) && TopCount(choices) * 2 > |choices| then MajorityNoConsensus
    else NoConsensus
  }

  function Outcome(choices: seq<string>, t: Threshold): string {
    if ThresholdMet(choices, t) then Disposition(choices) else NO_CONSENSUS
  }

  /** `expected_minority`: every ballot that did not choose the disposition, or all of them without one. */
  function Minority(ballots: seq<Ballot>, disposition: string): seq<Ballot> {
    if ballots == [] then []
    else
      Minority(ballots[..|ballots| - 1], disposition)
      + (if disposition == NO_SINGLE_DISPOSITION || ballots[|ballots| - 1].choice != disposition
        then [ballots[|ballots| - 1]] else [])
  }

  // ----- the top count -----

  lemma {:induction false} MostBounds(choices: seq<string>, m: multiset<string>)
    ensures forall c :: c in choices ==> m[c] <= Most(choices, m)
    ensures choices != [] ==> exists c :: c in choices && m[c] == Most(choices, m)
  {
    if choices != [] {
      MostBounds(choices[1..], m);
      assert choices == [choices[0]] + choices[1..];
      if m[choices[0]] <= Most(choices[1..], m) {
        if choices[1..] == [] {
          assert choices[0] in choices && m[choices[0]] == 0;
        } else {
          var c :| c in choices[1..] && m[c] == Most(choices[1..], m);
          assert c in choices;
        }
      }
    }
  }

  /** The top count is attained and is at least every count. */
  lemma TopIs(choices: seq<string>, n: nat)
    requires choices != []
    ensures TopCount(choices) == n <==> (forall c :: Votes(choices, c) <= n) && exists c ::
      c in choices && Votes(choices, c) == n
  {
    MostBounds(choices, multiset(choices));
    hide Most;
    forall c ensures Votes(choices, c) <= TopCount(choices) {
      if c !in choices { assert c !in multiset(choices); }
    }
    var top :| top in choices && Votes(choices, top) == TopCount(choices);
    if (forall c :: Votes(choices, c) <= n) && exists c :: c in choices && Votes(choices, c) == n {
      assert Votes(choices, top) <= n;
    }
  }

  lemma Sub(a: multiset<string>, b: multiset<string>)
    requires a <= b
    ensures |a| <= |b|
  {
    assert b == a + (b - a);
  }

  lemma TwoChoices(choices: seq<string>, c: string, d: string)
    requires c != d
    ensures Votes(choices, c) + Votes(choices, d) <= |choices|
  {
    var both := multiset{}[c := Votes(choices, c)] + multiset{}[d := Votes(choices, d)];
    assert both <= multiset(choices);
    Sub(both, multiset(choices));
    assert |multiset(choices)| == |choices|;
  }

  // ----- laws -----

  lemma SameTally(a: seq<string>, b: seq<string>)
    requires multiset(a) == multiset(b)
    ensures |a| == |b| && TopCount(a) == TopCount(b) && Winners(a) == Winners(b)
  {
    assert |multiset(a)| == |a| && |multiset(b)| == |b|;
    assert forall c :: c in a <==> c in multiset(a);
    assert forall c :: c in b <==> c in multiset(b);
    hide TopCount;
    if a != [] {
      TopIs(a, TopCount(a));
      assert forall c :: Votes(b, c) == Votes(a, c);
      TopIs(b, TopCount(a));
    } else {
      assert a == b;
    }
  }

  /** Disposition, label and outcome depend on the ballots only as a multiset of choices. */
  lemma OrderDoesNotMatter(a: seq<string>, b: seq<string>, t: Threshold)
    requires multiset(a) == multiset(b)
    ensures Disposition(a) == Disposition(b) && LabelOf(a, t) == LabelOf(b, t) && Outcome(a, t) == Outcome(b, t)
  {
    hide TopCount;
    SameTally(a, b);
    if SingleWinner(a) {
      assert Winner(a) in Winners(a) && Winner(b) in Winners(b);
      OnlyMember(Winners(a), Winner(a), Winner(b));
    }
  }

  lemma Scale(a: nat, b: nat, k: nat)
    requires a <= b
    ensures k * a <= k * b
  {
  }

  /** Unanimity always meets the committed threshold, whatever it is. */
  lemma UnanimousMeetsThreshold(choices: seq<string>, t: Threshold)
    requires t.Valid() && LabelOf(choices, t).Unanimous?
    ensures ThresholdMet(choices, t) && Outcome(choices, t) == Disposition(choices)
  {
    Scale(t.numerator, t.denominator, |choices|);
  }

  /** Above one half, no two choices can reach the threshold. */
  lemma AtMostOneReaches(choices: seq<string>, t: Threshold, c: string, d: string)
    requires choices != [] && 2 * t.numerator > t.denominator
    requires Votes(choices, c) * t.denominator >= |choices| * t.numerator
      && Votes(choices, d) * t.denominator >= |choices| * t.numerator
    ensures c == d
  {
    var x, y, n, p, q := Votes(choices, c), Votes(choices, d), |choices|, t.numerator, t.denominator;
    if c != d {
      TwoChoices(choices, c, d);
      TooFew(x, y, n, p, q);
    }
  }

  lemma TooFew(x: nat, y: nat, n: nat, p: nat, q: nat)
    requires n > 0 && 2 * p > q && x + y <= n && x * q >= n * p
    ensures y * q < n * p
  {
    assert (x + y) * q == x * q + y * q;
    Scale(x + y, n, q);
    assert q * (x + y) == (x + y) * q && q * n == n * q;
    assert n * (2 * p) == n * p + n * p;
    assert n * (2 * p - q) == n * (2 * p) - n * q;
    Positive(n, 2 * p - q);
  }

  lemma Positive(a: int, b: int)
    requires a > 0 && b > 0
    ensures a * b > 0
  {
  }

  lemma SoleWinnerLeads(choices: seq<string>, w: string)
    ensures SingleWinner(choices) && Winner(choices) == w <==> w in choices && forall c :: c != w ==>
      Votes(choices, c) < Votes(choices, w)
  {
    if choices != [] { TopIs(choices, TopCount(choices)); }
    if SingleWinner(choices) && Winner(choices) == w {
      forall c | c != w ensures Votes(choices, c) < Votes(choices, w) {
        if Votes(choices, c) == TopCount(choices) {
          assert c in multiset(choices);
          OnlyMember(Winners(choices), c, w);
        }
      }
    }
    if w in choices && forall c :: c != w ==> Votes(choices, c) < Votes(choices, w) {
      TopIs(choices, Votes(choices, w));
      assert Winners(choices) == {w};
    }
  }

  /** `w` got more votes than any other choice. */
  ghost predicate Leads(choices: seq<string>, w: string) {
    w in choices && forall c :: c != w ==> Votes(choices, c) < Votes(choices, w)
  }

  /** The label and the outcome, from the votes of a leader: unanimous when there are no others, otherwise by
      whether it reaches the committed threshold, and four fifths of the votes, or else a bare majority. */
  lemma LabelByVotes(choices: seq<string>, t: Threshold, w: string)
    requires t.Valid() && Leads(choices, w)
    ensures
      var n, all, says := Votes(choices, w), |choices|, LabelOf(choices, t);
      var reached := n * t.denominator >= all * t.numerator;
      && (says == Unanimous <==> forall c :: c in choices ==> c == w)
      && (says == StrongConsensus <==> n < all && reached && 5 * n >= 4 * all)
      && (says == Consensus <==> reached && 5 * n < 4 * all)
      && (says == MajorityNoConsensus <==> !reached && 2 * n > all)
      && (says == NoConsensus <==> !reached && 2 * n <= all)
      && Disposition(choices) == w && Outcome(choices, t) == if reached then w else "NO_CONSENSUS"
  {
    hide TopCount;
    SoleWinnerLeads(choices, w);
    var n := Votes(choices, w);
    VotesOfAll(choices, w);
    if n == |choices| { Scale(t.numerator, t.denominator, n); }
  }

  lemma {:induction false} VotesOfAll(choices: seq<string>, w: string)
    ensures Votes(choices, w) <= |choices|
    ensures Votes(choices, w) == |choices| <==> forall c :: c in choices ==> c == w
  {
    if choices != [] {
      assert choices == [choices[0]] + choices[1..];
      VotesOfAll(choices[1..], w);
      assert Votes(choices, w) == Votes(choices[1..], w) + (if choices[0] == w then 1 else 0);
      assert forall c :: c in choices <==> c == choices[0] || c in choices[1..];
      assert choices[0] in choices;
    }
  }

  /** Without a leader there is no disposition and no consensus. */
  lemma NoLeader(choices: seq<string>, t: Threshold)
    requires forall w :: !Leads(choices, w)
    ensures Disposition(choices) == "NO_SINGLE_DISPOSITION" && LabelOf(choices, t) == NoConsensus
    ensures Outcome(choices, t) == "NO_CONSENSUS"
  {
    if SingleWinner(choices) {
      SoleWinnerLeads(choices, Winner(choices));
      assert Leads(choices, Winner(choices));
    }
  }

  /** One more vote for the sole winner keeps it the sole winner and never lowers the label. */
  lemma ExtraVoteNeverLowers(choices: seq<string>, t: Threshold)
    requires t.Valid() && SingleWinner(choices)
    ensures
      var more := choices + [Winner(choices)];
      && SingleWinner(more) && Winner(more) == Winner(choices)
      && LabelOf(choices, t).Rank() <= LabelOf(more, t).Rank()
  {
    hide TopCount, SingleWinner;
    var w := Winner(choices);
    var more := choices + [w];
    SoleWinnerLeads(choices, w);
    forall c ensures Votes(more, c) == Votes(choices, c) + (if c == w then 1 else 0) {}
    SoleWinnerLeads(more, w);
    assert TopCount(more) == TopCount(choices) + 1;
    if TopCount(choices) * t.denominator >= |choices| * t.numerator {
      OneMore(TopCount(choices), |choices|, t.numerator, t.denominator);
    }
  }

  lemma OneMore(x: nat, n: nat, p: nat, q: nat)
    requires x * q >= n * p && p <= q
    ensures (x + 1) * q >= (n + 1) * p
  {
  }

  // ----- minority reports -----

  ghost predicate InMinority(b: Ballot, disposition: string) {
    disposition == NO_SINGLE_DISPOSITION || b.choice != disposition
  }

  /** The positions of the ballots reported as minority. */
  ghost function Places(ballots: seq<Ballot>, disposition: string): seq<int> {
    if ballots == [] then []
    else
      Places(ballots[..|ballots| - 1], disposition)
      + (if InMinority(ballots[|ballots| - 1], disposition) then [|ballots| - 1] else [])
  }

  lemma {:induction false} PlacesInRange(ballots: seq<Ballot>, disposition: string)
    ensures StrictlyAscending(Places(ballots, disposition))
    ensures forall x :: x in Places(ballots, disposition) ==> 0 <= x < |ballots|
  {
    if ballots != [] {
      PlacesInRange(ballots[..|ballots| - 1], disposition);
      var front, all := Places(ballots[..|ballots| - 1], disposition), Places(ballots, disposition);
      forall i, j | 0 <= i < j < |all| ensures all[i] < all[j] {
        assert all[i] in front;
      }
    }
  }

  lemma {:induction false} PlacesComplete(ballots: seq<Ballot>, disposition: string)
    ensures forall j :: 0 <= j < |ballots| ==>
      (j in Places(ballots, disposition) <==> InMinority(ballots[j], disposition))
  {
    hide InMinority;
    if ballots != [] {
      var n := |ballots| - 1;
      PlacesComplete(ballots[..n], disposition);
      PlacesInRange(ballots[..n], disposition);
      forall j | 0 <= j < |ballots| ensures j in Places(ballots, disposition) <==> InMinority(ballots[j], disposition) {
        if j < n { assert ballots[..n][j] == ballots[j]; }
      }
    }
  }

  /** The minority reports are, in roster order, exactly the ballots that did not choose the disposition. */
  lemma {:induction false} MinorityInRosterOrder(ballots: seq<Ballot>, disposition: string)
    ensures
      var places := Places(ballots, disposition);
      && StrictlyAscending(places) && |places| == |Minority(ballots, disposition)|
      && (forall i :: 0 <= i < |places| ==>
        0 <= places[i] < |ballots| && Minority(ballots, disposition)[i] == ballots[places[i]])
      && (forall j :: 0 <= j < |ballots| ==> (j in places <==> InMinority(ballots[j], disposition)))
  {
    PlacesInRange(ballots, disposition);
    PlacesComplete(ballots, disposition);
    if ballots != [] {
      var n := |ballots| - 1;
      hide StrictlyAscending;
      MinorityInRosterOrder(ballots[..n], disposition);
      var places := Places(ballots, disposition);
      forall i | 0 <= i < |places| ensures 0 <= places[i] < |ballots|
        && Minority(ballots, disposition)[i] == ballots[places[i]] {
        assert places[i] in places;
        if i < |Places(ballots[..n], disposition)| { assert ballots[..n][places[i]] == ballots[places[i]]; }
      }
    }
  }

  lemma ChoicesSnoc(ballots: seq<Ballot>)
    requires ballots != []
    ensures Choices(ballots) == Choices(ballots[..|ballots| - 1]) + [ballots[|ballots| - 1].choice]
  {
  }

  lemma {:induction false} MinorityCount(ballots: seq<Ballot>, disposition: string)
    ensures |Minority(ballots, disposition)| ==
      if disposition == NO_SINGLE_DISPOSITION then |ballots| else |ballots| - Votes(Choices(ballots), disposition)
  {
    if ballots != [] {
      MinorityCount(ballots[..|ballots| - 1], disposition);
      ChoicesSnoc(ballots);
    }
  }

  /** With a sole winner the minority counts the total less the top count, and without one it is everybody,
      exactly when no winner carries the name that stands for having none. */
  lemma MinorityNumbers(ballots: seq<Ballot>)
    requires ballots != []
    ensures
      var choices := Choices(ballots);
      var expected := if SingleWinner(choices) then |ballots| - TopCount(choices) else |ballots|;
      |Minority(ballots, Disposition(choices))| == expected <==>
        !(SingleWinner(choices) && Winner(choices) == NO_SINGLE_DISPOSITION)
  {
    hide SingleWinner, TopCount;
    var choices := Choices(ballots);
    MinorityCount(ballots, Disposition(choices));
    TopIs(choices, TopCount(choices));
    if SingleWinner(choices) {
      assert Winner(choices) in multiset(choices);
    }
  }

  /** The clash, concretely: a unanimous Council whose members all choose that name is its own minority. */
  lemma SentinelClash()
    ensures
      var ballots := [Ballot("a", NO_SINGLE_DISPOSITION, ""), Ballot("b", NO_SINGLE_DISPOSITION, "")];
      && SingleWinner(Choices(ballots)) && LabelOf(Choices(ballots), Threshold(2, 3)).Unanimous?
      && Minority(ballots, Disposition(Choices(ballots))) == ballots
  {
    var ballots := [Ballot("a", NO_SINGLE_DISPOSITION, ""), Ballot("b", NO_SINGLE_DISPOSITION, "")];
    var choices := Choices(ballots);
    assert choices == [NO_SINGLE_DISPOSITION, NO_SINGLE_DISPOSITION];
    SoleWinnerLeads(choices, NO_SINGLE_DISPOSITION);
    assert TopCount(choices) == 2;
    MinorityCount(ballots, Disposition(choices));
    assert ballots[..1][..0] == [] && ballots[..1][0] == ballots[0];
    assert Minority(ballots[..1], NO_SINGLE_DISPOSITION) == [ballots[0]];
  }

  /** The same name clash for the outcome: it reads as no consensus without a met threshold, or with a winner
      that bears the name. */
  lemma OutcomeReads(choices: seq<string>, t: Threshold)
    ensures Outcome(choices, t) == NO_CONSENSUS <==> !ThresholdMet(choices, t) || Winner(choices) == NO_CONSENSUS
  {
    hide SingleWinner;
  }

  // ----- sealed ballots -----

  /** What a ballot commitment binds. */
  datatype Sealed = Sealed(session: string, ballot: Ballot)

  /** Commitments and reveals line up with the roster, and every reveal opens its commitment. */
  ghost predicate Opens(seal: Sealed -> Id, session: string, roster: seq<string>, commitments: seq<Id>,
      revealed: seq<Ballot>) {
    && |commitments| == |revealed| == |roster|
    && forall i :: 0 <= i < |revealed| ==>
      revealed[i].member == roster[i] && seal(Sealed(session, revealed[i])) == commitments[i]
  }

  /** The check of sealed ballots, one pair at a time. */
  method CheckReveals(seal: Sealed -> Id, session: string, roster: seq<string>, commitments: seq<Id>,
      revealed: seq<Ballot>) returns (ok: bool)
    ensures ok <==> Opens(seal, session, roster, commitments, revealed)
  {
    if |commitments| != |roster| || |revealed| != |roster| {
      return false;
    }
    if exists i :: 0 <= i < |roster| && revealed[i].member != roster[i] {
      return false;
    }
    for i := 0 to |revealed|
      invariant forall j :: 0 <= j < i ==> seal(Sealed(session, revealed[j])) == commitments[j]
    {
      if seal(Sealed(session, revealed[i])) != commitments[i] {
        return false;
      }
    }
    ok := true;
  }

  /** A set of commitments can be opened in one way only, so it fixes the whole result. */
  lemma CommitmentsFixTheResult(seal: Sealed -> Id, session: string, roster: seq<string>, commitments: seq<Id>,
      a: seq<Ballot>, b: seq<Ballot>, t: Threshold)
    requires Injective(seal) && Opens(seal, session, roster, commitments, a)
      && Opens(seal, session, roster, commitments, b)
    ensures a == b && LabelOf(Choices(a), t) == LabelOf(Choices(b), t)
      && Disposition(Choices(a)) == Disposition(Choices(b))
  {
    hide LabelOf, Disposition;
    forall i | 0 <= i < |a| ensures a[i] == b[i] {
      assert seal(Sealed(session, a[i])) == seal(Sealed(session, b[i]));
    }
  }
}
