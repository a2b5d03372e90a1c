/** Resolving what a user called a wallet, merchant or category to one of their own. */
module EntityResolution {
  import opened Common
  import opened SeqSums
  import opened Sorting

  const MAX_CANDIDATES := 100
  const AMBIGUITY_OPTIONS := 5
  const RESOLUTION_THRESHOLD := 900
  const AMBIGUITY_MARGIN := 50

  /** Identifiers and tie-break keys are compared as texts; here they are numbers in that order. */
  datatype Candidate = Candidate(
    id: Id, tieBreak: nat, name: string, canonical: string, aliases: seq<string>,
    normalizedLabel: string, normalizedAliases: seq<string>)

  datatype Reference = Reference(comparison: string, normalized: string)

  datatype EvidenceKind = CanonicalExact | AliasExact | NormalizedExact | ConstrainedMatch | NoMatch

  datatype Scored = Scored(candidate: Candidate, score: int)

  datatype Resolution =
    | Resolved(id: Id, name: string)
    | NotFound
    | Ambiguous(options: seq<Scored>)
    | CandidateLimitExceeded

  // ---------------------------------------------------------------- matching

  function Score(kind: EvidenceKind): int {
    match kind
    case CanonicalExact => 1000
    case AliasExact => 950
    case NormalizedExact => 900
    case ConstrainedMatch => 0
    case NoMatch => 0
  }

  function MatchKind(c: Candidate, r: Reference): EvidenceKind {
    if r.comparison == c.canonical then CanonicalExact
    else if r.comparison in c.aliases then AliasExact
    else if NormalizedMatches(c, r) then NormalizedExact
    else NoMatch
  }

  predicate NormalizedMatches(c: Candidate, r: Reference) {
    r.normalized == c.normalizedLabel || r.normalized in c.normalizedAliases
  }

  /**
   * The first evidence is the strongest kind of match there is: the canonical name before any alias,
   * an alias before the normalised forms. A constraint is noted exactly for a candidate that matches.
   */
  method MatchEntityCandidate(c: Candidate, r: Reference, constrained: bool) returns (evidence: seq<EvidenceKind>)
    ensures 1 <= |evidence| <= 2
    ensures evidence[0] == CanonicalExact <==> r.comparison == c.canonical
    ensures evidence[0] == AliasExact <==> r.comparison in c.aliases && r.comparison != c.canonical
    ensures evidence[0] == NormalizedExact <==> NormalizedMatches(c, r) && r.comparison != c.canonical && r.comparison !in c.aliases
    ensures evidence[0] == NoMatch <==> r.comparison != c.canonical && r.comparison !in c.aliases && !NormalizedMatches(c, r)
    ensures ConstrainedMatch in evidence <==> constrained && evidence[0] != NoMatch
    ensures |evidence| == 2 ==> evidence[1] == ConstrainedMatch
    ensures evidence == Evidence(c, r, constrained)
  {
    var kind := NoMatch;
    if r.comparison == c.canonical {
      kind := CanonicalExact;
    } else if r.comparison in c.aliases {
      kind := AliasExact;
    } else if r.normalized == c.normalizedLabel || r.normalized in c.normalizedAliases {
      kind := NormalizedExact;
    }
    evidence := [kind];
    if constrained && kind != NoMatch {
      evidence := evidence + [ConstrainedMatch];
    }
  }

  function Evidence(c: Candidate, r: Reference, constrained: bool): seq<EvidenceKind> {
    var kind := MatchKind(c, r);
    if constrained && kind != NoMatch then [kind, ConstrainedMatch] else [kind]
  }

  function ConfidenceFromEvidence(evidence: seq<EvidenceKind>): int {
    if evidence == [] then 0
    else
      var (highest, last) := (ConfidenceFromEvidence(evidence[..|evidence| - 1]), Score(evidence[|evidence| - 1]));
      if highest >= last then highest else last
  }

  /** The confidence of a match is the score of its kind; a constraint adds nothing. */
  lemma ConfidenceIsScore(c: Candidate, r: Reference, constrained: bool)
    ensures ConfidenceFromEvidence(Evidence(c, r, constrained)) == Score(MatchKind(c, r))
  {
    var kind := MatchKind(c, r);
    assert [kind][..0] == [] && [kind, ConstrainedMatch][..1] == [kind];
    assert ConfidenceFromEvidence([kind][..0]) == 0;
    assert ConfidenceFromEvidence([kind]) == Score(kind);
  }

  // ---------------------------------------------------------------- scoring and order

  function ScoreOf(r: Reference, constrained: bool): Candidate -> Scored {
    (c: Candidate) => Scored(c, ConfidenceFromEvidence(Evidence(c, r, constrained)))
  }

  function ScoreAll(candidates: seq<Candidate>, r: Reference, constrained: bool): seq<Scored> {
    Mapped(candidates, ScoreOf(r, constrained))
  }

  /** Best score first, then by tie-break key, then by identifier. */
  function CompareScored(): (Scored, Scored) -> bool {
    (a: Scored, b: Scored) =>
      a.score > b.score
      || (a.score == b.score && (a.candidate.tieBreak < b.candidate.tieBreak
                                 || (a.candidate.tieBreak == b.candidate.tieBreak && a.candidate.id <= b.candidate.id)))
  }

  lemma CompareScoredIsOrder()
    ensures IsOrder(CompareScored())
  {
  }

  function Eligible(): Scored -> bool {
    (s: Scored) => s.score >= RESOLUTION_THRESHOLD
  }

  function Competes(top: Scored): Scored -> bool {
    (s: Scored) => top.score - s.score <= AMBIGUITY_MARGIN
  }

  function Resolve(candidates: seq<Candidate>, r: Reference, constrained: bool): Resolution {
    if |candidates| > MAX_CANDIDATES then CandidateLimitExceeded
    else
      var scored := Sort(ScoreAll(candidates, r, constrained), CompareScored());
      var eligible := Filtered(scored, Eligible());
      if eligible == [] then NotFound
      else
        var top := eligible[0];
        var competing := Filtered(eligible[1..], Competes(top));
        if competing == [] then Resolved(top.candidate.id, top.candidate.name)
        else
          var options := [top] + competing;
          Ambiguous(if |options| <= AMBIGUITY_OPTIONS then options else options[..AMBIGUITY_OPTIONS])
  }

  // ---------------------------------------------------------------- order independence

  predicate DistinctCandidates(candidates: seq<Candidate>) {
    forall i, j :: 0 <= i < j < |candidates| ==> candidates[i].id != candidates[j].id
  }

  /** The answer does not depend on the order in which the candidates were loaded. */
  lemma LoadOrderIsIrrelevant(a: seq<Candidate>, b: seq<Candidate>, r: Reference, constrained: bool)
    requires multiset(a) == multiset(b) && DistinctCandidates(a)
    ensures Resolve(a, r, constrained) == Resolve(b, r, constrained)
  {
    assert |multiset(a)| == |multiset(b)|;
    MappedForgetsOrder(a, b, ScoreOf(r, constrained));
    CompareScoredIsOrder();
    OrderTellsApart(a, r, constrained);
    SortForgetsOrder(ScoreAll(a, r, constrained), ScoreAll(b, r, constrained), CompareScored());
  }

  lemma OrderTellsApart(candidates: seq<Candidate>, r: Reference, constrained: bool)
    requires DistinctCandidates(candidates)
    ensures Distinguishes(CompareScored(), ScoreAll(candidates, r, constrained))
  {
    var scored := ScoreAll(candidates, r, constrained);
    forall x, y | x in scored && y in scored && CompareScored()(x, y) && CompareScored()(y, x) ensures x == y {
      var i :| 0 <= i < |scored| && scored[i] == x;
      var j :| 0 <= j < |scored| && scored[j] == y;
    }
  }

  // ---------------------------------------------------------------- what the answer means

  /** Everything the resolver looks at after sorting: the eligible candidates, best first. */
  function Ranking(candidates: seq<Candidate>, r: Reference, constrained: bool): seq<Scored> {
    Filtered(Sort(ScoreAll(candidates, r, constrained), CompareScored()), Eligible())
  }

  predicate NoRepeats(s: seq<Scored>) {
    forall i, j :: 0 <= i < j < |s| ==> s[i] != s[j]
  }

  lemma {:induction false} RepeatsCount(s: seq<Scored>)
    ensures NoRepeats(s) <==> forall x :: multiset(s)[x] <= 1
  {
    if s != [] {
      assert s == [s[0]] + s[1..];
      RepeatsCount(s[1..]);
      if s[0] in s[1..] {
        assert s[0] in multiset(s[1..]);
        assert multiset(s)[s[0]] >= 2;
        var j :| 0 <= j < |s[1..]| && s[1..][j] == s[0];
        assert s[0] == s[j + 1];
      } else {
        assert multiset(s[1..])[s[0]] == 0;
        assert forall x :: multiset(s)[x] == multiset(s[1..])[x] + if x == s[0] then 1 else 0;
        assert forall j :: 0 < j < |s| ==> s[j] == s[1..][j - 1];
      }
    }
  }

  lemma RankingFacts(candidates: seq<Candidate>, r: Reference, constrained: bool)
    requires DistinctCandidates(candidates)
    ensures var (ranking, scored) := (Ranking(candidates, r, constrained), ScoreAll(candidates, r, constrained));
      && IsSorted(ranking, CompareScored()) && NoRepeats(ranking)
      && (forall x :: x in ranking <==> x in scored && x.score >= RESOLUTION_THRESHOLD)
  {
    var scored := ScoreAll(candidates, r, constrained);
    var sorted := Sort(scored, CompareScored());
    CompareScoredIsOrder();
    SortSorts(scored, CompareScored());
    SameElements(scored, sorted);
    FilteredSorted(sorted, Eligible(), CompareScored());
    FilteredKept(sorted, Eligible());
    assert NoRepeats(scored);
    RepeatsCount(scored);
    RepeatsCount(Ranking(candidates, r, constrained));
  }

  /** The one candidate that scores enough, with every other more than the margin below it. */
  predicate UniqueTop(scored: seq<Scored>, x: Scored) {
    && x in scored && x.score >= RESOLUTION_THRESHOLD
    && (forall y :: y in scored && y != x ==> x.score - y.score > AMBIGUITY_MARGIN)
  }

  lemma CompetitionIsEmpty(ranking: seq<Scored>)
    requires ranking != [] && NoRepeats(ranking)
    ensures Filtered(ranking[1..], Competes(ranking[0])) == []
            <==> forall y :: y in ranking && y != ranking[0] ==> ranking[0].score - y.score > AMBIGUITY_MARGIN
  {
    var competing := Filtered(ranking[1..], Competes(ranking[0]));
    FilteredKept(ranking[1..], Competes(ranking[0]));
    if competing == [] {
      forall y | y in ranking && y != ranking[0] ensures ranking[0].score - y.score > AMBIGUITY_MARGIN {
        var j :| 0 <= j < |ranking| && ranking[j] == y;
        assert ranking[1..][j - 1] == y && y in ranking[1..];
        assert y !in competing;
      }
    } else {
      var y := competing[0];
      assert y in competing;
      var j :| 0 <= j < |ranking[1..]| && ranking[1..][j] == y;
      assert ranking[j + 1] == y;
    }
  }

  /** A score is a full match of one of three kinds, or nothing: none lies just below the threshold. */
  lemma ScoresAreSteps(candidates: seq<Candidate>, r: Reference, constrained: bool)
    ensures forall x :: x in ScoreAll(candidates, r, constrained) ==>
      x.candidate in candidates && x.score == Score(MatchKind(x.candidate, r)) && (x.score >= RESOLUTION_THRESHOLD || x.score == 0)
  {
    forall x | x in ScoreAll(candidates, r, constrained)
      ensures x.candidate in candidates && x.score == Score(MatchKind(x.candidate, r))
    {
      var i :| 0 <= i < |candidates| && ScoreAll(candidates, r, constrained)[i] == x;
      ConfidenceIsScore(candidates[i], r, constrained);
    }
  }

  /** Not found exactly when no candidate scores enough. */
  lemma NotFoundExactly(candidates: seq<Candidate>, r: Reference, constrained: bool)
    requires DistinctCandidates(candidates) && |candidates| <= MAX_CANDIDATES
    ensures Resolve(candidates, r, constrained).NotFound? <==>
      forall c :: c in candidates ==> Score(MatchKind(c, r)) < RESOLUTION_THRESHOLD
  {
    var ranking, scored := Ranking(candidates, r, constrained), ScoreAll(candidates, r, constrained);
    RankingFacts(candidates, r, constrained);
    ScoresAreSteps(candidates, r, constrained);
    if ranking != [] {
      assert ranking[0] in ranking;
      assert ranking[0].candidate in candidates;
    } else {
      forall c | c in candidates ensures Score(MatchKind(c, r)) < RESOLUTION_THRESHOLD {
        var i :| 0 <= i < |candidates| && candidates[i] == c;
        assert scored[i] in scored && scored[i] !in ranking;
      }
    }
  }

  /** Resolved exactly when one candidate scores enough and stands more than the margin above all others. */
  lemma ResolvedExactly(candidates: seq<Candidate>, r: Reference, constrained: bool)
    requires DistinctCandidates(candidates) && |candidates| <= MAX_CANDIDATES
    ensures var (scored, answer) := (ScoreAll(candidates, r, constrained), Resolve(candidates, r, constrained));
      && (answer.Resolved? <==> exists x :: UniqueTop(scored, x))
      && (forall x :: UniqueTop(scored, x) ==> answer == Resolved(x.candidate.id, x.candidate.name))
  {
    var ranking, scored := Ranking(candidates, r, constrained), ScoreAll(candidates, r, constrained);
    RankingFacts(candidates, r, constrained);
    ScoresAreSteps(candidates, r, constrained);
    if ranking != [] {
      CompetitionIsEmpty(ranking);
      TopIsUnique(ranking, scored);
    } else {
      forall x ensures !UniqueTop(scored, x) {
        assert x !in ranking;
      }
    }
  }

  lemma TopIsUnique(ranking: seq<Scored>, scored: seq<Scored>)
    requires ranking != [] && IsSorted(ranking, CompareScored())
    requires forall x :: x in ranking <==> x in scored && x.score >= RESOLUTION_THRESHOLD
    requires forall x :: x in scored ==> x.score >= RESOLUTION_THRESHOLD || x.score == 0
    ensures forall x :: UniqueTop(scored, x) ==> x == ranking[0]
    ensures UniqueTop(scored, ranking[0]) <==>
      forall y :: y in ranking && y != ranking[0] ==> ranking[0].score - y.score > AMBIGUITY_MARGIN
  {
    var top := ranking[0];
    assert top in ranking;
    forall x | UniqueTop(scored, x) ensures x == top {
      assert x in ranking;
      var j :| 0 <= j < |ranking| && ranking[j] == x;
      if j > 0 {
        assert CompareScored()(ranking[0], ranking[j]);
      }
    }
    if forall y :: y in ranking && y != top ==> top.score - y.score > AMBIGUITY_MARGIN {
      forall y | y in scored && y != top ensures top.score - y.score > AMBIGUITY_MARGIN {
        if y !in ranking {
          assert y.score == 0;
        }
      }
    }
  }

  /** The candidates a user has to choose between: eligible and within the margin of the best. */
  predicate InContention(scored: seq<Scored>, x: Scored) {
    && x in scored && x.score >= RESOLUTION_THRESHOLD
    && (forall y :: y in scored ==> y.score - x.score <= AMBIGUITY_MARGIN)
  }

  /**
   * Otherwise ambiguous: at least two and at most five options in score order, all of them in
   * contention; one in contention is left out only when five others come before it.
   */
  lemma AmbiguousOptions(candidates: seq<Candidate>, r: Reference, constrained: bool)
    requires DistinctCandidates(candidates) && Resolve(candidates, r, constrained).Ambiguous?
    ensures var (scored, options) := (ScoreAll(candidates, r, constrained), Resolve(candidates, r, constrained).options);
      && 2 <= |options| <= AMBIGUITY_OPTIONS
      && IsSorted(options, CompareScored()) && NoRepeats(options)
      && (forall x :: x in options ==> InContention(scored, x))
      && (forall x :: InContention(scored, x) && x !in options ==>
           |options| == AMBIGUITY_OPTIONS && forall y :: y in options ==> CompareScored()(y, x))
  {
    var ranking, scored := Ranking(candidates, r, constrained), ScoreAll(candidates, r, constrained);
    RankingFacts(candidates, r, constrained);
    var top := ranking[0];
    var all := [top] + Filtered(ranking[1..], Competes(top));
    ContentionList(ranking, scored, all);
    var options := Resolve(candidates, r, constrained).options;
    assert options == if |all| <= AMBIGUITY_OPTIONS then all else all[..AMBIGUITY_OPTIONS];
    forall x | InContention(scored, x) && x !in options
      ensures |options| == AMBIGUITY_OPTIONS && forall y :: y in options ==> CompareScored()(y, x)
    {
      assert x in all;
      var i :| 0 <= i < |all| && all[i] == x;
    }
  }

  lemma ContentionList(ranking: seq<Scored>, scored: seq<Scored>, all: seq<Scored>)
    requires ranking != [] && IsSorted(ranking, CompareScored()) && NoRepeats(ranking)
    requires forall x :: x in ranking <==> x in scored && x.score >= RESOLUTION_THRESHOLD
    requires all == [ranking[0]] + Filtered(ranking[1..], Competes(ranking[0]))
    ensures IsSorted(all, CompareScored()) && NoRepeats(all)
    ensures forall x :: x in all <==> InContention(scored, x)
  {
    var top, tail := ranking[0], ranking[1..];
    TopIsBest(ranking, scored);
    FilteredKept(tail, Competes(top));
    assert top in ranking && top !in tail;
    assert forall x :: x in ranking <==> x == top || x in tail;
    assert forall x :: x in all <==> x == top || (x in tail && Competes(top)(x));
    ContentionShape(top, tail);
  }

  lemma ContentionShape(top: Scored, tail: seq<Scored>)
    requires IsSorted(tail, CompareScored()) && NoRepeats(tail) && top !in tail
    requires forall x :: x in tail ==> CompareScored()(top, x)
    ensures var all := [top] + Filtered(tail, Competes(top)); IsSorted(all, CompareScored()) && NoRepeats(all)
  {
    FilteredSorted(tail, Competes(top), CompareScored());
    FilteredKept(tail, Competes(top));
    RepeatsCount(tail);
    RepeatsCount(Filtered(tail, Competes(top)));
  }

  lemma TopIsBest(ranking: seq<Scored>, scored: seq<Scored>)
    requires ranking != [] && IsSorted(ranking, CompareScored())
    requires forall x :: x in ranking <==> x in scored && x.score >= RESOLUTION_THRESHOLD
    ensures forall x :: x in ranking[1..] ==> CompareScored()(ranking[0], x)
    ensures forall y :: y in scored ==> y.score <= ranking[0].score
  {
    var top, tail := ranking[0], ranking[1..];
    assert top in ranking;
    forall x | x in tail ensures CompareScored()(top, x) {
      var j :| 0 <= j < |tail| && tail[j] == x;
      assert ranking[j + 1] == x;
    }
    forall y | y in scored ensures y.score <= top.score {
      if y in ranking && y != top {
        var j :| 0 <= j < |ranking| && ranking[j] == y;
        assert tail[j - 1] == y && y in tail;
      }
    }
  }

  // ---------------------------------------------------------------- the same, told by names

  predicate IsCanonical(c: Candidate, r: Reference) {
    r.comparison == c.canonical
  }

  predicate IsAlias(c: Candidate, r: Reference) {
    r.comparison in c.aliases
  }

  predicate Matches(c: Candidate, r: Reference) {
    IsCanonical(c, r) || IsAlias(c, r) || NormalizedMatches(c, r)
  }

  /** Every match counts, but once a canonical name is hit a match in normalised form alone does not. */
  ghost predicate Contends(candidates: seq<Candidate>, r: Reference, c: Candidate) {
    && c in candidates && Matches(c, r)
    && ((exists d :: d in candidates && IsCanonical(d, r)) ==> IsCanonical(c, r) || IsAlias(c, r))
  }

  ghost predicate ContendsAlone(candidates: seq<Candidate>, r: Reference, c: Candidate) {
    Contends(candidates, r, c) && forall d :: Contends(candidates, r, d) ==> d == c
  }

  lemma ScoreTells(c: Candidate, r: Reference)
    ensures var score := Score(MatchKind(c, r));
      && (score >= 1000 <==> IsCanonical(c, r)) && (score >= 950 <==> IsCanonical(c, r) || IsAlias(c, r))
      && (score >= RESOLUTION_THRESHOLD <==> Matches(c, r)) && score in {0, 900, 950, 1000}
  {
  }

  lemma ScoredAre(candidates: seq<Candidate>, r: Reference, constrained: bool, x: Scored)
    ensures x in ScoreAll(candidates, r, constrained) <==> x.candidate in candidates && x.score == Score(MatchKind(x.candidate, r))
  {
    ScoresAreSteps(candidates, r, constrained);
    if x.candidate in candidates && x.score == Score(MatchKind(x.candidate, r)) {
      var i :| 0 <= i < |candidates| && candidates[i] == x.candidate;
      ConfidenceIsScore(candidates[i], r, constrained);
      assert ScoreAll(candidates, r, constrained)[i] == x;
    }
  }

  lemma ContentionByNames(candidates: seq<Candidate>, r: Reference, constrained: bool, x: Scored)
    requires x in ScoreAll(candidates, r, constrained)
    ensures InContention(ScoreAll(candidates, r, constrained), x) <==> Contends(candidates, r, x.candidate)
  {
    var scored := ScoreAll(candidates, r, constrained);
    ScoredAre(candidates, r, constrained, x);
    ScoreTells(x.candidate, r);
    if InContention(scored, x) {
      forall d | d in candidates && IsCanonical(d, r) ensures x.score >= 950 {
        ScoredAre(candidates, r, constrained, Scored(d, Score(MatchKind(d, r))));
        ScoreTells(d, r);
      }
    } else if Contends(candidates, r, x.candidate) {
      var y :| y in scored && y.score - x.score > AMBIGUITY_MARGIN;
      ScoredAre(candidates, r, constrained, y);
      ScoreTells(y.candidate, r);
    }
  }

  lemma TopByNames(candidates: seq<Candidate>, r: Reference, constrained: bool, x: Scored)
    requires x in ScoreAll(candidates, r, constrained)
    ensures UniqueTop(ScoreAll(candidates, r, constrained), x) <==> ContendsAlone(candidates, r, x.candidate)
  {
    var scored := ScoreAll(candidates, r, constrained);
    ContentionByNames(candidates, r, constrained, x);
    ScoredAre(candidates, r, constrained, x);
    ScoreTells(x.candidate, r);
    if UniqueTop(scored, x) {
      forall d | Contends(candidates, r, d) ensures d == x.candidate {
        ContenderScores(candidates, r, constrained, d);
        assert InContention(scored, Scored(d, Score(MatchKind(d, r))));
      }
    } else if ContendsAlone(candidates, r, x.candidate) {
      forall d | d in candidates && IsCanonical(d, r) ensures d == x.candidate {
        assert Contends(candidates, r, d);
      }
      var y :| y in scored && y != x && x.score - y.score <= AMBIGUITY_MARGIN;
      ScoredAre(candidates, r, constrained, y);
      ScoreTells(y.candidate, r);
      assert Contends(candidates, r, y.candidate);
    }
  }

  lemma ContenderScores(candidates: seq<Candidate>, r: Reference, constrained: bool, d: Candidate)
    requires Contends(candidates, r, d)
    ensures InContention(ScoreAll(candidates, r, constrained), Scored(d, Score(MatchKind(d, r))))
  {
    var x := Scored(d, Score(MatchKind(d, r)));
    ScoredAre(candidates, r, constrained, x);
    ContentionByNames(candidates, r, constrained, x);
  }

  /**
   * A reference finds nothing exactly when it matches nothing; it finds a candidate exactly when that
   * one contends alone: the only match, or the only exact match beside a canonical one; and it is
   * ambiguous between contenders otherwise.
   */
  lemma NamesDecide(candidates: seq<Candidate>, r: Reference, constrained: bool)
    requires DistinctCandidates(candidates) && |candidates| <= MAX_CANDIDATES
    ensures var answer := Resolve(candidates, r, constrained);
      && (answer.NotFound? <==> forall c :: c in candidates ==> !Matches(c, r))
      && (forall c :: ContendsAlone(candidates, r, c) ==> answer == Resolved(c.id, c.name))
      && (answer.Resolved? ==> exists c :: ContendsAlone(candidates, r, c))
      && (answer.Ambiguous? ==> forall x :: x in answer.options ==> Contends(candidates, r, x.candidate))
  {
    var answer, scored := Resolve(candidates, r, constrained), ScoreAll(candidates, r, constrained);
    NotFoundExactly(candidates, r, constrained);
    ResolvedExactly(candidates, r, constrained);
    forall c | c in candidates ensures Score(MatchKind(c, r)) >= RESOLUTION_THRESHOLD <==> Matches(c, r) {
      ScoreTells(c, r);
    }
    forall c | ContendsAlone(candidates, r, c) ensures answer == Resolved(c.id, c.name) {
      ContenderScores(candidates, r, constrained, c);
      TopByNames(candidates, r, constrained, Scored(c, Score(MatchKind(c, r))));
      assert UniqueTop(scored, Scored(c, Score(MatchKind(c, r))));
    }
    if answer.Resolved? {
      var x :| UniqueTop(scored, x);
      TopByNames(candidates, r, constrained, x);
    }
    if answer.Ambiguous? {
      AmbiguousOptions(candidates, r, constrained);
      forall x | x in answer.options ensures Contends(candidates, r, x.candidate) {
        ContentionByNames(candidates, r, constrained, x);
      }
    }
  }
}
