/** The ranking of brainstorm candidates (hermes_controller/brainstorm_core.py).
    Scores are exact fractions, here real numbers. */
module Ranking {
  import opened Common

  /** Candidate ids; their order stands for the order of the id strings. */
  type Id = int

  datatype Engine = Claude | Codex

  datatype Criterion = Criterion(id: string, title: string, description: string, weight: int)

  type Scores = map<string, int>

  datatype Candidate = Candidate(id: Id, author: Engine, claude: real, codex: real, final: real, disagreement: real)

  datatype Confidence = High | Medium | Low

  datatype Ranking = Ranking(
    entries: seq<Candidate>, margin: Option<real>, base: Confidence, confidence: Confidence,
    claudeBias: Option<real>, codexBias: Option<real>, flag: bool)

  datatype Result = Ranked(ranking: Ranking) | Refused

  const MAX_SCORE := 10

  // --- scores -------------------------------------------------------------------------------------

  function Weights(rubric: seq<Criterion>): int {
    if rubric == [] then 0 else Weights(rubric[..|rubric| - 1]) + rubric[|rubric| - 1].weight
  }

  const MIN_CRITERIA := 3
  const MAX_CRITERIA := 10
  const MAX_LABEL_CHARS := 80
  const MAX_DESCRIPTION_CHARS := 500

  predicate IsLower(c: char) { 'a' <= c <= 'z' }

  /** `[a-z][a-z0-9_]{0,31}` */
  predicate ValidId(id: string) {
    && 1 <= |id| <= 32 && IsLower(id[0])
    && forall i | 1 <= i < |id| :: IsLower(id[i]) || '0' <= id[i] <= '9' || id[i] == '_'
  }

  predicate ValidCriterion(c: Criterion) {
    && ValidId(c.id)
    && !IsBlank(c.title) && |c.title| <= MAX_LABEL_CHARS
    && !IsBlank(c.description) && |c.description| <= MAX_DESCRIPTION_CHARS
    && 1 <= c.weight <= 100
  }

  predicate DistinctIds(rubric: seq<Criterion>) {
    forall i, k | 0 <= i < k < |rubric| :: rubric[i].id != rubric[k].id
  }

  predicate ValidCriteria(rubric: seq<Criterion>) {
    (forall c | c in rubric :: ValidCriterion(c)) && DistinctIds(rubric)
  }

  predicate ValidRubric(rubric: seq<Criterion>) {
    MIN_CRITERIA <= |rubric| <= MAX_CRITERIA && ValidCriteria(rubric) && Weights(rubric) == 100
  }

  function IdsOf(rubric: seq<Criterion>): set<string> {
    set c | c in rubric :: c.id
  }

  lemma IdsOneMore(before: seq<Criterion>, c: Criterion)
    ensures IdsOf(before + [c]) == IdsOf(before) + {c.id}
    ensures DistinctIds(before + [c]) <==> DistinctIds(before) && c.id !in IdsOf(before)
  {
    var all := before + [c];
    assert all[|before|] == c;
    if DistinctIds(all) {
      assert forall i, k | 0 <= i < k < |before| :: all[i] == before[i] && all[k] == before[k];
      assert forall i | 0 <= i < |before| :: all[i] == before[i];
    }
  }

  lemma CriteriaOneMore(before: seq<Criterion>, c: Criterion)
    ensures ValidCriteria(before + [c]) <==> ValidCriteria(before) && ValidCriterion(c) && c.id !in IdsOf(before)
  {
    hide ValidCriterion, IdsOf, DistinctIds;
    IdsOneMore(before, c);
    assert c in before + [c] && forall b | b in before :: b in before + [c];
  }

  lemma {:induction false} CriteriaPrefix(rubric: seq<Criterion>, n: nat)
    requires n <= |rubric| && ValidCriteria(rubric)
    ensures ValidCriteria(rubric[..n])
  {
    hide ValidCriterion;
  }

  /** A criterion in the form that the contract prescribes. */
  predicate InForm(c: Criterion) {
    && 1 <= |c.id| <= 32 && 97 <= c.id[0] as int <= 122
    && (forall i | 1 <= i < |c.id| ::
          97 <= c.id[i] as int <= 122 || 48 <= c.id[i] as int <= 57 || c.id[i] as int == 95)
    && |c.title| <= 80 && (exists i :: 0 <= i < |c.title| && !IsSpace(c.title[i]))
    && |c.description| <= 500 && (exists i :: 0 <= i < |c.description| && !IsSpace(c.description[i]))
    && 1 <= c.weight <= 100
  }

  function WeightSum(rubric: seq<Criterion>): int {
    if rubric == [] then 0 else rubric[0].weight + WeightSum(rubric[1..])
  }

  lemma {:induction false} WeightSumSnoc(front: seq<Criterion>, c: Criterion)
    ensures WeightSum(front + [c]) == WeightSum(front) + c.weight
  {
    if front == [] {
      assert [] + [c] == [c];
    } else {
      assert (front + [c])[1..] == front[1..] + [c];
      WeightSumSnoc(front[1..], c);
    }
  }

  lemma {:induction false} WeightsAreSum(rubric: seq<Criterion>)
    ensures Weights(rubric) == WeightSum(rubric)
  {
    if rubric != [] {
      var front, c := rubric[..|rubric| - 1], rubric[|rubric| - 1];
      assert rubric == front + [c];
      WeightsAreSum(front);
      WeightSumSnoc(front, c);
    }
  }

  lemma FormMeans(c: Criterion)
    ensures ValidCriterion(c) <==> InForm(c)
  {
    hide IsSpace;
  }

  /** A rubric has 3 to 10 criteria in form, with distinct ids and weights that sum
      to 100. */
  lemma RubricMeans(rubric: seq<Criterion>)
    ensures ValidRubric(rubric) <==>
              && 3 <= |rubric| <= 10 && (forall i | 0 <= i < |rubric| :: InForm(rubric[i]))
              && (forall i, k | 0 <= i < k < |rubric| :: rubric[i].id != rubric[k].id) && WeightSum(rubric) == 100
  {
    WeightsAreSum(rubric);
    forall i | 0 <= i < |rubric|
      ensures rubric[i] in rubric && (ValidCriterion(rubric[i]) <==> InForm(rubric[i]))
    {
      FormMeans(rubric[i]);
    }
    hide ValidCriterion, InForm, WeightSum, Weights;
  }

  /** The validator's loop over the criteria. */
  method ValidateRubric(rubric: seq<Criterion>) returns (ok: bool)
    ensures ok <==> ValidRubric(rubric)
  {
    hide ValidCriterion, ValidCriteria, IdsOf;
    if !(MIN_CRITERIA <= |rubric| <= MAX_CRITERIA) {
      return false;
    }
    var seen: set<string> := {};
    var sum := 0;
    NoCriteria();
    for n := 0 to |rubric|
      invariant seen == IdsOf(rubric[..n]) && sum == Weights(rubric[..n])
      invariant ValidCriteria(rubric[..n])
    {
      var criterion := rubric[n];
      assert rubric[..n + 1] == rubric[..n] + [criterion] && rubric[..n + 1][..n] == rubric[..n];
      CriteriaOneMore(rubric[..n], criterion);
      IdsOneMore(rubric[..n], criterion);
      if !ValidCriterion(criterion) || criterion.id in seen {
        BrokenCriteria(rubric, n + 1);
        return false;
      }
      seen := seen + {criterion.id};
      sum := sum + criterion.weight;
    }
    assert rubric[..|rubric|] == rubric;
    ok := sum == 100;
  }

  lemma NoCriteria()
    ensures ValidCriteria([]) && IdsOf([]) == {}
  {
  }

  lemma BrokenCriteria(rubric: seq<Criterion>, n: nat)
    requires n <= |rubric| && !ValidCriteria(rubric[..n])
    ensures !ValidCriteria(rubric)
  {
    if ValidCriteria(rubric) {
      CriteriaPrefix(rubric, n);
    }
  }

  ghost predicate Covers(scores: Scores, rubric: seq<Criterion>) {
    forall c | c in rubric :: c.id in scores
  }

  ghost predicate InRange(scores: Scores) {
    forall id | id in scores :: 0 <= scores[id] <= MAX_SCORE
  }

  function Weighted(scores: Scores, rubric: seq<Criterion>): int
    requires Covers(scores, rubric)
  {
    if rubric == [] then 0
    else
      var c := rubric[|rubric| - 1];
      Weighted(scores, rubric[..|rubric| - 1]) + scores[c.id] * c.weight
  }

  function ModelScore(scores: Scores, rubric: seq<Criterion>): real
    requires Covers(scores, rubric)
  {
    Weighted(scores, rubric) as real / 10.0
  }

  lemma ScaledWeight(score: int, weight: int)
    requires 0 <= score <= MAX_SCORE && weight >= 0
    ensures 0 <= score * weight <= MAX_SCORE * weight
  {
  }

  lemma {:induction false} WeightedBounds(scores: Scores, rubric: seq<Criterion>)
    requires Covers(scores, rubric) && InRange(scores) && forall c | c in rubric :: c.weight >= 0
    ensures 0 <= Weighted(scores, rubric) <= MAX_SCORE * Weights(rubric)
  {
    if rubric != [] {
      var c := rubric[|rubric| - 1];
      WeightedBounds(scores, rubric[..|rubric| - 1]);
      ScaledWeight(scores[c.id], c.weight);
    }
  }

  // --- order ----------------------------------------------------------------------------------------

  /** Sorted by falling score, rising disagreement, rising id. */
  predicate Before(a: Candidate, b: Candidate) {
    a.final > b.final
    || (a.final == b.final && (a.disagreement < b.disagreement || (a.disagreement == b.disagreement && a.id <= b.id)))
  }

  predicate Sorted(entries: seq<Candidate>) {
    forall i, k | 0 <= i < k < |entries| :: Before(entries[i], entries[k])
  }

  /** No two entries for the same candidate. */
  predicate Individual(entries: seq<Candidate>) {
    forall i, k | 0 <= i < k < |entries| :: entries[i].id != entries[k].id
  }

  lemma FirstIn(entries: seq<Candidate>, e: Candidate)
    requires entries != [] && Sorted(entries) && e in entries
    ensures Before(entries[0], e)
  {
    var i :| 0 <= i < |entries| && entries[i] == e;
  }

  lemma TailOf(a: seq<Candidate>)
    requires a != []
    ensures a[0] in multiset(a) && multiset(a[1..]) == multiset(a) - multiset{a[0]}
    ensures Sorted(a) ==> Sorted(a[1..])
    ensures Individual(a) ==> Individual(a[1..])
  {
    assert a == [a[0]] + a[1..];
  }

  /** Only one order of the same candidates is sorted. */
  lemma {:induction false} SortedIsUnique(a: seq<Candidate>, b: seq<Candidate>)
    requires multiset(a) == multiset(b) && Sorted(a) && Sorted(b) && Individual(a)
    ensures a == b
  {
    hide Sorted, Individual, Before;
    if a == [] {
      assert b == [] by {
        if b != [] {
          TailOf(b);
        }
      }
    } else {
      TailOf(a);
      assert b != [];
      TailOf(b);
      FirstIn(b, a[0]);
      FirstIn(a, b[0]);
      SameFirst(a, b);
      SortedIsUnique(a[1..], b[1..]);
      assert a == [a[0]] + a[1..] && b == [b[0]] + b[1..];
    }
  }

  lemma SameFirst(a: seq<Candidate>, b: seq<Candidate>)
    requires a != [] && b != [] && b[0] in a && Before(a[0], b[0]) && Before(b[0], a[0]) && Individual(a)
    ensures a[0] == b[0]
  {
    var i :| 0 <= i < |a| && a[i] == b[0];
  }

  /** Puts one candidate where it belongs. */
  method Insert(entries: seq<Candidate>, e: Candidate) returns (result: seq<Candidate>)
    requires Sorted(entries)
    ensures Sorted(result) && multiset(result) == multiset(entries) + multiset{e}
  {
    var i := 0;
    while i < |entries| && Before(entries[i], e)
      invariant 0 <= i <= |entries|
      invariant forall k | 0 <= k < i :: Before(entries[k], e)
    {
      i := i + 1;
    }
    result := entries[..i] + [e] + entries[i..];
    assert entries == entries[..i] + entries[i..];
    assert i < |entries| ==> Before(e, entries[i]);
    InsertSorted(entries, e, i);
  }

  lemma InsertSorted(entries: seq<Candidate>, e: Candidate, i: nat)
    requires Sorted(entries) && i <= |entries|
    requires forall k | 0 <= k < i :: Before(entries[k], e)
    requires i < |entries| ==> Before(e, entries[i])
    ensures Sorted(entries[..i] + [e] + entries[i..])
  {
    var result := entries[..i] + [e] + entries[i..];
    forall j, k | 0 <= j < k < |result|
      ensures Before(result[j], result[k])
    {
      var before, after := if j < i then j else j - 1, if k < i then k else k - 1;
      assert j != i ==> result[j] == entries[before];
      assert k != i ==> result[k] == entries[after];
      if j == i && after > i {
        assert Before(entries[i], entries[after]);
      }
    }
  }

  // --- the ranking of given evaluations ---------------------------------------------------------------

  datatype Input = Input(claude: map<Id, Scores>, codex: map<Id, Scores>, rubric: seq<Criterion>,
    authors: map<Id, Engine>)

  predicate Comparable(input: Input) {
    input.claude.Keys == input.codex.Keys && input.authors.Keys == input.claude.Keys
  }

  /** The evaluations are those that the validators let through. */
  ghost predicate Evaluated(input: Input) {
    && (forall id | id in input.claude :: Covers(input.claude[id], input.rubric))
    && (forall id | id in input.codex :: Covers(input.codex[id], input.rubric))
  }

  function ScoreBy(input: Input, engine: Engine, id: Id): real
    requires Evaluated(input) && id in input.claude && id in input.codex
  {
    if engine == Claude then ModelScore(input.claude[id], input.rubric) else ModelScore(input.codex[id], input.rubric)
  }

  function Distance(a: real, b: real): real {
    if a >= b then a - b else b - a
  }

  function CandidateOf(input: Input, id: Id): Candidate
    requires Evaluated(input) && Comparable(input) && id in input.authors
  {
    var c, x := ScoreBy(input, Claude, id), ScoreBy(input, Codex, id);
    Candidate(id, input.authors[id], c, x, (c + x) / 2.0, Distance(c, x))
  }

  /** An enumeration of a dictionary's keys. */
  ghost predicate Enumerates(order: seq<Id>, ids: set<Id>) {
    (forall i, k | 0 <= i < k < |order| :: order[i] != order[k]) && (forall id :: id in order <==> id in ids)
  }

  function Candidates(input: Input, order: seq<Id>): seq<Candidate>
    requires Evaluated(input) && Comparable(input) && forall id | id in order :: id in input.authors
  {
    if order == [] then [] else Candidates(input, order[..|order| - 1]) + [CandidateOf(input, order[|order| - 1])]
  }

  /** The candidates in order of merit, whatever order they were listed in. */
  ghost predicate Merits(input: Input, entries: seq<Candidate>)
    requires Evaluated(input) && Comparable(input)
  {
    && Sorted(entries) && Individual(entries)
    && (forall e | e in entries :: e.id in input.authors && e == CandidateOf(input, e.id))
    && (forall id | id in input.authors :: CandidateOf(input, id) in entries)
  }

  lemma {:induction false} CandidatesAre(input: Input, order: seq<Id>)
    requires Evaluated(input) && Comparable(input) && Enumerates(order, input.authors.Keys)
    ensures Individual(Candidates(input, order)) && |Candidates(input, order)| == |order|
    ensures forall i | 0 <= i < |order| :: Candidates(input, order)[i] == CandidateOf(input, order[i])
  {
    CandidateAt(input, order);
  }

  lemma {:induction false} CandidateAt(input: Input, order: seq<Id>)
    requires Evaluated(input) && Comparable(input) && forall id | id in order :: id in input.authors
    ensures |Candidates(input, order)| == |order|
    ensures forall i | 0 <= i < |order| :: Candidates(input, order)[i] == CandidateOf(input, order[i])
  {
    if order != [] {
      CandidateAt(input, order[..|order| - 1]);
    }
  }

  lemma MeritsOf(input: Input, order: seq<Id>, entries: seq<Candidate>)
    requires Evaluated(input) && Comparable(input) && Enumerates(order, input.authors.Keys)
    requires Sorted(entries) && multiset(entries) == multiset(Candidates(input, order))
    ensures Merits(input, entries)
  {
    CandidatesAre(input, order);
    var listed := Candidates(input, order);
    SameMultiset(listed, entries);
    hide Sorted, Individual, CandidateOf, Evaluated, Comparable, Candidates;
    forall id | id in input.authors
      ensures CandidateOf(input, id) in entries
    {
      var i :| 0 <= i < |order| && order[i] == id;
      assert listed[i] in multiset(listed);
    }
    forall e | e in entries
      ensures e.id in input.authors && e == CandidateOf(input, e.id)
    {
      assert e in multiset(entries) && e in listed;
      var i :| 0 <= i < |listed| && listed[i] == e;
      assert order[i] in order;
    }
  }

  lemma {:induction false} SameMultiset(a: seq<Candidate>, b: seq<Candidate>)
    requires Individual(a) && multiset(a) == multiset(b)
    ensures Individual(b)
  {
    forall i, k | 0 <= i < k < |b|
      ensures b[i].id != b[k].id
    {
      if b[i].id == b[k].id {
        BothOccur(a, b, i, k);
      }
    }
  }

  lemma BothOccur(a: seq<Candidate>, b: seq<Candidate>, i: nat, k: nat)
    requires i < k < |b| && Individual(a) && multiset(a) == multiset(b)
    ensures b[i].id != b[k].id
  {
    assert b[i] in multiset(b) && b[k] in multiset(b);
    var x :| 0 <= x < |a| && a[x] == b[i];
    var y :| 0 <= y < |a| && a[y] == b[k];
    if x == y {
      Twice(b, i, k);
      Once(a, x);
    }
  }

  lemma Twice(b: seq<Candidate>, i: nat, k: nat)
    requires i < k < |b| && b[i] == b[k]
    ensures multiset(b)[b[i]] >= 2
  {
    assert b == b[..i] + [b[i]] + b[i + 1..k] + [b[k]] + b[k + 1..];
  }

  lemma Once(a: seq<Candidate>, x: nat)
    requires x < |a| && Individual(a)
    ensures multiset(a)[a[x]] == 1
  {
    assert a == a[..x] + [a[x]] + a[x + 1..];
    assert a[x] !in a[..x] && a[x] !in a[x + 1..];
  }

  /** There is only one ranking. */
  lemma MeritsAreUnique(input: Input, a: seq<Candidate>, b: seq<Candidate>)
    requires Evaluated(input) && Comparable(input) && Merits(input, a) && Merits(input, b)
    ensures a == b
  {
    forall e
      ensures multiset(a)[e] == multiset(b)[e]
    {
      CountInMerits(input, a, e);
      CountInMerits(input, b, e);
    }
    assert multiset(a) == multiset(b);
    SortedIsUnique(a, b);
  }

  lemma CountInMerits(input: Input, a: seq<Candidate>, e: Candidate)
    requires Evaluated(input) && Comparable(input) && Merits(input, a)
    ensures multiset(a)[e] == if e.id in input.authors && e == CandidateOf(input, e.id) then 1 else 0
  {
    if e in a {
      var x :| 0 <= x < |a| && a[x] == e;
      Once(a, x);
    }
  }

  // --- self-preference ---------------------------------------------------------------------------------

  /** The scores that `engine` gave its own candidates, or the others, in listing order. */
  function ScoresGiven(input: Input, engine: Engine, own: bool, order: seq<Id>): seq<real>
    requires Evaluated(input) && Comparable(input) && forall id | id in order :: id in input.authors
  {
    if order == [] then []
    else
      var id := order[|order| - 1];
      ScoresGiven(input, engine, own, order[..|order| - 1])
      + if (input.authors[id] == engine) == own then [ScoreBy(input, engine, id)] else []
  }

  function Sum(values: seq<real>): real {
    if values == [] then 0.0 else Sum(values[..|values| - 1]) + values[|values| - 1]
  }

  function Mean(values: seq<real>): real
    requires values != []
  {
    Sum(values) / |values| as real
  }

  function Bias(input: Input, engine: Engine, order: seq<Id>): Option<real>
    requires Evaluated(input) && Comparable(input) && forall id | id in order :: id in input.authors
  {
    var own, other := ScoresGiven(input, engine, true, order), ScoresGiven(input, engine, false, order);
    if own != [] && other != [] then Some(Mean(own) - Mean(other)) else None
  }

  lemma {:induction false} SumAppend(a: seq<real>, b: seq<real>)
    ensures Sum(a + b) == Sum(a) + Sum(b)
  {
    if b == [] {
      assert a + b == a;
    } else {
      assert (a + b)[..|a + b| - 1] == a + b[..|b| - 1];
      SumAppend(a, b[..|b| - 1]);
    }
  }

  lemma {:induction false} GivenAppend(input: Input, engine: Engine, own: bool, a: seq<Id>, b: seq<Id>)
    requires Evaluated(input) && Comparable(input) && forall id | id in a + b :: id in input.authors
    ensures (forall id | id in a :: id in input.authors) && (forall id | id in b :: id in input.authors)
    ensures ScoresGiven(input, engine, own, a + b) ==
            ScoresGiven(input, engine, own, a) + ScoresGiven(input, engine, own, b)
  {
    assert forall id | id in a :: id in a + b;
    assert forall id | id in b :: id in a + b;
    if b == [] {
      assert a + b == a;
    } else {
      var init := b[..|b| - 1];
      assert (a + b)[..|a + b| - 1] == a + init;
      assert forall id | id in a + init :: id in a + b;
      GivenAppend(input, engine, own, a, init);
    }
  }

  /** Neither the sum nor the number of the scores depends on the listing order. */
  lemma {:induction false} GivenPermutes(input: Input, engine: Engine, own: bool, a: seq<Id>, b: seq<Id>, ids: set<Id>)
    requires Evaluated(input) && Comparable(input) && Enumerates(a, ids) && Enumerates(b, ids)
             && ids <= input.authors.Keys
    ensures var x, y := ScoresGiven(input, engine, own, a), ScoresGiven(input, engine, own, b);
            Sum(x) == Sum(y) && |x| == |y|
    decreases |a|
  {
    if a == [] {
      EmptyEnumeration(a, b, ids);
    } else {
      var last := a[|a| - 1];
      var i := Position(b, last, ids);
      var c := b[..i] + b[i + 1..];
      Shorter(a, ids);
      Removed(b, i, ids);
      GivenPermutes(input, engine, own, a[..|a| - 1], c, ids - {last});
      assert a == a[..|a| - 1] + [last] && b == b[..i] + [last] + b[i + 1..];
      GivenOneMore(input, engine, own, a[..|a| - 1], b[..i], last, b[i + 1..]);
    }
  }

  /** Adding the same candidate anywhere adds the same score. */
  lemma GivenOneMore(input: Input, engine: Engine, own: bool, a: seq<Id>, b: seq<Id>, id: Id, c: seq<Id>)
    requires Evaluated(input) && Comparable(input)
    requires (forall x | x in a + [id] :: x in input.authors) && (forall x | x in b + [id] + c :: x in input.authors)
    requires (forall x | x in a :: x in input.authors) && (forall x | x in b + c :: x in input.authors)
    requires var x, y := ScoresGiven(input, engine, own, a), ScoresGiven(input, engine, own, b + c);
             Sum(x) == Sum(y) && |x| == |y|
    ensures var x, y := ScoresGiven(input, engine, own, a + [id]), ScoresGiven(input, engine, own, b + [id] + c);
            Sum(x) == Sum(y) && |x| == |y|
  {
    hide ScoresGiven, Sum, Evaluated;
    GivenAppend(input, engine, own, a, [id]);
    SumAppend(ScoresGiven(input, engine, own, a), ScoresGiven(input, engine, own, [id]));
    GivenMoves(input, engine, own, b, id, c);
  }

  lemma EmptyEnumeration(a: seq<Id>, b: seq<Id>, ids: set<Id>)
    requires a == [] && Enumerates(a, ids) && Enumerates(b, ids)
    ensures b == []
  {
    if b != [] {
      var id := First(b);
    }
  }

  lemma First<T>(items: seq<T>) returns (item: T)
    requires items != []
    ensures item in items
  {
    item := items[0];
  }

  lemma Position(b: seq<Id>, id: Id, ids: set<Id>) returns (i: nat)
    requires Enumerates(b, ids) && id in ids
    ensures i < |b| && b[i] == id
  {
    i :| 0 <= i < |b| && b[i] == id;
  }

  lemma Shorter(a: seq<Id>, ids: set<Id>)
    requires Enumerates(a, ids) && a != []
    ensures Enumerates(a[..|a| - 1], ids - {a[|a| - 1]}) && a[|a| - 1] in ids
  {
    var init, last := a[..|a| - 1], a[|a| - 1];
    assert last in a;
    assert a == init + [last];
    assert forall id :: id in a <==> id in init || id == last;
  }

  lemma Removed(b: seq<Id>, i: nat, ids: set<Id>)
    requires Enumerates(b, ids) && i < |b|
    ensures Enumerates(b[..i] + b[i + 1..], ids - {b[i]})
  {
    assert b == b[..i] + [b[i]] + b[i + 1..];
    var c := b[..i] + b[i + 1..];
    forall id
      ensures id in c <==> id in ids - {b[i]}
    {
      if id in c {
        var k :| 0 <= k < |c| && c[k] == id;
        assert id == b[if k < i then k else k + 1];
      }
    }
  }

  lemma GivenMoves(input: Input, engine: Engine, own: bool, a: seq<Id>, id: Id, b: seq<Id>)
    requires Evaluated(input) && Comparable(input) && forall x | x in a + [id] + b :: x in input.authors
    ensures (forall x | x in a + b :: x in input.authors) && (forall x | x in [id] :: x in input.authors)
    ensures var all, rest, one := ScoresGiven(input, engine, own, a + [id] + b),
            ScoresGiven(input, engine, own, a + b), ScoresGiven(input, engine, own, [id]);
            Sum(all) == Sum(rest) + Sum(one) && |all| == |rest| + |one|
  {
    assert forall x | x in a + b :: x in a + [id] + b;
    assert id in a + [id] + b;
    GivenAppend(input, engine, own, a + [id], b);
    GivenAppend(input, engine, own, a, [id]);
    GivenAppend(input, engine, own, a, b);
    var p, q, r := ScoresGiven(input, engine, own, a), ScoresGiven(input, engine, own, [id]),
        ScoresGiven(input, engine, own, b);
    SumAppend(p + q, r);
    SumAppend(p, q);
    SumAppend(p, r);
  }

  lemma BiasPermutes(input: Input, engine: Engine, a: seq<Id>, b: seq<Id>)
    requires Evaluated(input) && Comparable(input) && Enumerates(a, input.authors.Keys)
             && Enumerates(b, input.authors.Keys)
    ensures Bias(input, engine, a) == Bias(input, engine, b)
  {
    GivenPermutes(input, engine, true, a, b, input.authors.Keys);
    GivenPermutes(input, engine, false, a, b, input.authors.Keys);
  }

  // --- confidence -----------------------------------------------------------------------------------------

  function BaseConfidence(entries: seq<Candidate>, margin: Option<real>): Confidence {
    if entries == [] then Low
    else if entries[0].final >= 75.0 && entries[0].disagreement <= 10.0 && margin.Some? && margin.value >= 5.0 then High
    else if entries[0].final >= 65.0 && entries[0].disagreement <= 20.0 then Medium
    else Low
  }

  function Margin(entries: seq<Candidate>): Option<real> {
    if |entries| > 1 then Some(entries[0].final - entries[1].final) else None
  }

  /** The bias of the winner's author, if there is a winner. */
  function WinnerBias(r: Ranking): Option<real> {
    if r.entries == [] then None else if r.entries[0].author == Claude then r.claudeBias else r.codexBias
  }

  /** What a ranking has to say about its input. */
  ghost predicate Correct(input: Input, r: Ranking, claudeOrder: seq<Id>, codexOrder: seq<Id>)
    requires Evaluated(input) && Comparable(input)
    requires Enumerates(claudeOrder, input.authors.Keys) && Enumerates(codexOrder, input.authors.Keys)
  {
    && Merits(input, r.entries)
    && r.margin == Margin(r.entries)
    && r.base == BaseConfidence(r.entries, r.margin)
    && r.claudeBias == Bias(input, Claude, claudeOrder) && r.codexBias == Bias(input, Codex, codexOrder)
    && r.flag == (WinnerBias(r).Some? && WinnerBias(r).value >= 10.0)
    && r.confidence == if r.flag && r.base == High then Medium else r.base
  }

  /** The mean of an engine's scores for its own and for the other's candidates. */
  method SelfPreference(input: Input, engine: Engine, order: seq<Id>) returns (bias: Option<real>)
    requires Evaluated(input) && Comparable(input) && forall id | id in order :: id in input.authors
    ensures bias == Bias(input, engine, order)
  {
    var own: seq<real>, other: seq<real> := [], [];
    for i := 0 to |order|
      invariant own == ScoresGiven(input, engine, true, order[..i])
                && other == ScoresGiven(input, engine, false, order[..i])
    {
      assert order[..i + 1][..i] == order[..i];
      var id := order[i];
      assert id in order;
      if input.authors[id] == engine {
        own := own + [ScoreBy(input, engine, id)];
      } else {
        other := other + [ScoreBy(input, engine, id)];
      }
    }
    assert order[..|order|] == order;
    bias := if own != [] && other != [] then Some(Mean(own) - Mean(other)) else None;
  }

  method SortCandidates(input: Input, order: seq<Id>) returns (entries: seq<Candidate>)
    requires Evaluated(input) && Comparable(input) && Enumerates(order, input.authors.Keys)
    ensures Merits(input, entries)
  {
    entries := [];
    for i := 0 to |order|
      invariant forall id | id in order[..i] :: id in input.authors
      invariant Sorted(entries) && multiset(entries) == multiset(Candidates(input, order[..i]))
    {
      assert order[..i + 1][..i] == order[..i] && order[i] in order;
      entries := Insert(entries, CandidateOf(input, order[i]));
    }
    assert order[..|order|] == order;
    MeritsOf(input, order, entries);
  }

  /** Ranks the candidates; the three orders are those of the dictionaries. */
  method Rank(input: Input, order: seq<Id>, claudeOrder: seq<Id>, codexOrder: seq<Id>) returns (r: Result)
    requires Evaluated(input) && Enumerates(order, input.authors.Keys)
    requires Enumerates(claudeOrder, input.claude.Keys) && Enumerates(codexOrder, input.codex.Keys)
    ensures r.Ranked? <==> ValidRubric(input.rubric) && Comparable(input)
    ensures r.Ranked? ==> Correct(input, r.ranking, claudeOrder, codexOrder)
  {
    var valid := ValidateRubric(input.rubric);
    if !valid || !Comparable(input) {
      return Refused;
    }
    var entries := SortCandidates(input, order);
    var claudeBias := SelfPreference(input, Claude, claudeOrder);
    var codexBias := SelfPreference(input, Codex, codexOrder);
    var margin := Margin(entries);
    var base := BaseConfidence(entries, margin);
    var bias: Option<real> := None;
    if entries != [] {
      bias := if entries[0].author == Claude then claudeBias else codexBias;
    }
    var flag := bias.Some? && bias.value >= 10.0;
    var confidence := if flag && base == High then Medium else base;
    r := Ranked(Ranking(entries, margin, base, confidence, claudeBias, codexBias, flag));
  }

  // --- what a ranking promises --------------------------------------------------------------------------------

  /** The order in which the dictionaries list their keys has no influence. */
  lemma OrderHasNoInfluence(input: Input, r: Ranking, c: seq<Id>, x: seq<Id>, q: Ranking, d: seq<Id>, y: seq<Id>)
    requires Evaluated(input) && Comparable(input)
    requires Enumerates(c, input.authors.Keys) && Enumerates(x, input.authors.Keys) && Correct(input, r, c, x)
    requires Enumerates(d, input.authors.Keys) && Enumerates(y, input.authors.Keys) && Correct(input, q, d, y)
    ensures r == q
  {
    hide Merits, Bias, Enumerates, Evaluated;
    MeritsAreUnique(input, r.entries, q.entries);
    BiasPermutes(input, Claude, c, d);
    BiasPermutes(input, Codex, x, y);
  }

  /** High confidence means that both engines gave the winner at least 70, that
      every other candidate is at least 5 behind, and that the winner's author
      does not prefer its own candidates. */
  lemma HighConfidenceMeans(input: Input, r: Ranking, c: seq<Id>, x: seq<Id>)
    requires Evaluated(input) && Comparable(input)
    requires Enumerates(c, input.authors.Keys) && Enumerates(x, input.authors.Keys) && Correct(input, r, c, x)
    requires r.confidence == High
    ensures |r.entries| >= 2 && !r.flag
    ensures var w := r.entries[0].id;
            && w in input.authors
            && ScoreBy(input, Claude, w) >= 70.0 && ScoreBy(input, Codex, w) >= 70.0
            && forall id | id in input.authors && id != w ::
                 CandidateOf(input, id).final + 5.0 <= CandidateOf(input, w).final
  {
    hide Bias, ScoreBy, Enumerates;
    var winner, second := r.entries[0], r.entries[1];
    assert winner in r.entries;
    forall id | id in input.authors && id != winner.id
      ensures CandidateOf(input, id).final + 5.0 <= winner.final
    {
      var e := CandidateOf(input, id);
      assert e in r.entries;
      var i :| 0 <= i < |r.entries| && r.entries[i] == e;
      assert i == 1 || Before(second, e);
    }
  }

  /** With a valid rubric and validated scores, every score is within 0..100. */
  lemma ScoresArePercentages(input: Input, engine: Engine, id: Id)
    requires Evaluated(input) && Comparable(input) && ValidRubric(input.rubric) && id in input.authors
    requires InRange(if engine == Claude then input.claude[id] else input.codex[id])
    ensures 0.0 <= ScoreBy(input, engine, id) <= 100.0
  {
    WeightedBounds(if engine == Claude then input.claude[id] else input.codex[id], input.rubric);
  }

  // --- what the numbers are ------------------------------------------------------------------------------------

  /** Score times weight, criterion by criterion. */
  function WeightedTotal(scores: Scores, rubric: seq<Criterion>): int
    requires Covers(scores, rubric)
  {
    if rubric == [] then 0 else scores[rubric[0].id] * rubric[0].weight + WeightedTotal(scores, rubric[1..])
  }

  lemma {:induction false} TotalSnoc(scores: Scores, rubric: seq<Criterion>, c: Criterion)
    requires Covers(scores, rubric) && c.id in scores
    ensures Covers(scores, rubric + [c])
    ensures WeightedTotal(scores, rubric + [c]) == WeightedTotal(scores, rubric) + scores[c.id] * c.weight
  {
    if rubric == [] {
      assert (rubric + [c])[1..] == [];
    } else {
      assert (rubric + [c])[0] == rubric[0] && (rubric + [c])[1..] == rubric[1..] + [c];
      TotalSnoc(scores, rubric[1..], c);
    }
  }

  lemma {:induction false} WeightedIsTotal(scores: Scores, rubric: seq<Criterion>)
    requires Covers(scores, rubric)
    ensures Weighted(scores, rubric) == WeightedTotal(scores, rubric)
  {
    if rubric != [] {
      var front, c := rubric[..|rubric| - 1], rubric[|rubric| - 1];
      WeightedIsTotal(scores, front);
      TotalSnoc(scores, front, c);
      assert rubric == front + [c];
    }
  }

  /** An engine's score is a tenth of the weighted sum of its own marks. */
  lemma ScoreIsWeighted(input: Input, engine: Engine, id: Id)
    requires Evaluated(input) && Comparable(input) && id in input.authors
    ensures ScoreBy(input, engine, id) * 10.0 ==
              WeightedTotal(if engine == Claude then input.claude[id] else input.codex[id], input.rubric) as real
  {
    WeightedIsTotal(input.claude[id], input.rubric);
    WeightedIsTotal(input.codex[id], input.rubric);
  }

  lemma {:induction false} SameMarks(scores: Scores, more: Scores, rubric: seq<Criterion>)
    requires Covers(scores, rubric) && Covers(more, rubric) && forall c | c in rubric :: more[c.id] == scores[c.id]
    ensures WeightedTotal(more, rubric) == WeightedTotal(scores, rubric)
  {
    if rubric != [] {
      assert rubric[0] in rubric;
      SameMarks(scores, more, rubric[1..]);
    }
  }

  /** One point more for a criterion counts as much as it weighs. */
  lemma {:induction false} OnePointMore(scores: Scores, rubric: seq<Criterion>, k: nat)
    requires Covers(scores, rubric) && DistinctIds(rubric) && k < |rubric|
    ensures var more := scores[rubric[k].id := scores[rubric[k].id] + 1];
            Covers(more, rubric) && WeightedTotal(more, rubric) == WeightedTotal(scores, rubric) + rubric[k].weight
  {
    var id := rubric[k].id;
    var more := scores[id := scores[id] + 1];
    assert forall i | 0 <= i < |rubric| && i != k :: rubric[i].id != id;
    if k == 0 {
      SameMarks(scores, more, rubric[1..]);
      assert (scores[id] + 1) * rubric[0].weight == scores[id] * rubric[0].weight + rubric[0].weight;
    } else {
      assert DistinctIds(rubric[1..]);
      OnePointMore(scores, rubric[1..], k - 1);
    }
  }

  /** What an entry says of its candidate, and why it stands where it does. */
  lemma EntriesSay(input: Input, r: Ranking, c: seq<Id>, x: seq<Id>, i: nat, k: nat)
    requires Evaluated(input) && Comparable(input)
    requires Enumerates(c, input.authors.Keys) && Enumerates(x, input.authors.Keys) && Correct(input, r, c, x)
    requires i < |r.entries|
    ensures var e := r.entries[i];
            && e.id in input.authors && e.author == input.authors[e.id]
            && e.claude == ScoreBy(input, Claude, e.id) && e.codex == ScoreBy(input, Codex, e.id)
            && e.final + e.final == e.claude + e.codex
            && e.disagreement >= 0.0 && (e.disagreement == e.claude - e.codex || e.disagreement == e.codex - e.claude)
    ensures i < k < |r.entries| ==>
              var e, f := r.entries[i], r.entries[k];
              || f.final < e.final || (f.final == e.final && e.disagreement < f.disagreement)
              || (f.final == e.final && e.disagreement == f.disagreement && e.id < f.id)
    ensures r.margin == if |r.entries| < 2 then None else Some(r.entries[0].final - r.entries[1].final)
  {
    hide Bias, ScoreBy, Enumerates;
    assert r.entries[i] in r.entries;
  }

  /** HIGH, MEDIUM or LOW: by the winner's mean, how far the engines are apart on
      it, how far the next one is behind, and whether its author prefers its own. */
  lemma ConfidenceIs(input: Input, r: Ranking, c: seq<Id>, x: seq<Id>)
    requires Evaluated(input) && Comparable(input)
    requires Enumerates(c, input.authors.Keys) && Enumerates(x, input.authors.Keys) && Correct(input, r, c, x)
    ensures r.entries == [] ==> r.confidence == Low && !r.flag
    ensures r.entries != [] ==>
              var w := r.entries[0]; var bias := if w.author == Claude then r.claudeBias else r.codexBias;
              var clear := w.final >= 75.0 && w.disagreement <= 10.0 && |r.entries| >= 2
                  && w.final >= r.entries[1].final + 5.0;
              && (r.flag <==> bias.Some? && bias.value >= 10.0)
              && (r.confidence == High <==> clear && !r.flag)
              && (r.confidence == Low <==> !clear && (w.final < 65.0 || w.disagreement > 20.0))
  {
    hide Bias, ScoreBy, Enumerates, Merits;
  }

  /** The marks an engine gave, summed up and counted. */
  function TotalGiven(input: Input, engine: Engine, own: bool, order: seq<Id>): real
    requires Evaluated(input) && Comparable(input) && forall id | id in order :: id in input.authors
  {
    if order == [] then 0.0
    else
      var id := order[0];
      (if (input.authors[id] == engine) == own then ScoreBy(input, engine, id) else 0.0)
      + TotalGiven(input, engine, own, order[1..])
  }

  function CountGiven(input: Input, engine: Engine, own: bool, order: seq<Id>): nat
    requires forall id | id in order :: id in input.authors
  {
    if order == [] then 0
    else
      var id := order[0];
      (if (input.authors[id] == engine) == own then 1 else 0) + CountGiven(input, engine, own, order[1..])
  }

  lemma {:induction false} GivenSnoc(input: Input, engine: Engine, own: bool, order: seq<Id>, id: Id)
    requires Evaluated(input) && Comparable(input) && (forall k | k in order :: k in input.authors)
             && id in input.authors
    ensures var mine := (input.authors[id] == engine) == own;
            && TotalGiven(input, engine, own, order + [id]) ==
                 TotalGiven(input, engine, own, order) + (if mine then ScoreBy(input, engine, id) else 0.0)
            && CountGiven(input, engine, own, order + [id]) == CountGiven(input, engine, own, order) +
                 if mine then 1 else 0
  {
    hide ScoreBy, Evaluated;
    if order == [] {
      assert (order + [id])[1..] == [];
    } else {
      assert (order + [id])[0] == order[0] && (order + [id])[1..] == order[1..] + [id];
      GivenSnoc(input, engine, own, order[1..], id);
    }
  }

  lemma {:induction false} GivenIsTotal(input: Input, engine: Engine, own: bool, order: seq<Id>)
    requires Evaluated(input) && Comparable(input) && forall id | id in order :: id in input.authors
    ensures var given := ScoresGiven(input, engine, own, order);
            Sum(given) == TotalGiven(input, engine, own, order) && |given| == CountGiven(input, engine, own, order)
  {
    hide ScoreBy, Evaluated;
    if order != [] {
      var front, id := order[..|order| - 1], order[|order| - 1];
      assert order == front + [id] && id in order;
      GivenIsTotal(input, engine, own, front);
      GivenSnoc(input, engine, own, front, id);
      var given := ScoresGiven(input, engine, own, front);
      SumOne(given, ScoreBy(input, engine, id));
      assert given + [] == given;
    }
  }

  lemma SumOne(values: seq<real>, value: real)
    ensures Sum(values + [value]) == Sum(values) + value
  {
    assert (values + [value])[..|values|] == values;
  }

  /** Self-preference is the mean of an engine's scores for its own candidates less
      the mean of those for the other's, and there is none if either has none. */
  lemma BiasIs(input: Input, engine: Engine, order: seq<Id>)
    requires Evaluated(input) && Comparable(input) && forall id | id in order :: id in input.authors
    ensures var mine, others := CountGiven(input, engine, true, order), CountGiven(input, engine, false, order);
            Bias(input, engine, order) ==
              if mine == 0 || others == 0 then None
              else Some(TotalGiven(input, engine, true, order) / mine as real
                        - TotalGiven(input, engine, false, order) / others as real)
  {
    GivenIsTotal(input, engine, true, order);
    GivenIsTotal(input, engine, false, order);
    hide ScoresGiven, TotalGiven, CountGiven, Sum;
  }
}
