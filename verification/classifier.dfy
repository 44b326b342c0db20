/**
 The keyword task classifier `detect_tasks` (backend.py:58-98): lower-case the
 input, collect every category one of whose keywords occurs in it, fall back to
 the assistant category when none does, sort the hits by the priority order and
 keep the first two.
 */
module Classifier {
  import opened Text
  import opened Tasks
  import opened Ranking

  /** Some keyword of `t` occurs in the (already lower-cased) text. */
  predicate Matches(t: TaskCategory, lowered: string) {
    exists w :: w in Keywords(t) && IsSubstring(w, lowered)
  }

  /** Some category matches the text. */
  predicate AnyHit(lowered: string) {
    exists t :: Matches(t, lowered)
  }

  /** The categories of `order` that match, in the order they are tested. */
  function Hits(order: seq<TaskCategory>, lowered: string): (r: seq<TaskCategory>)
    ensures forall t :: t in r <==> t in order && Matches(t, lowered)
    ensures Distinct(order) ==> Distinct(r)
  {
    if order == [] then []
    else
      var rest := Hits(order[1..], lowered);
      assert Distinct(order) ==> order[0] !in order[1..];
      if Matches(order[0], lowered) then [order[0]] + rest else rest
  }

  /** The list the source sorts: the hits, or the assistant alone when there are none. */
  function Candidates(lowered: string): seq<TaskCategory> {
    var hits := Hits(DetectionOrder, lowered);
    if hits == [] then [Assistant] else hits
  }

  /** Whether `t` is among the categories the classifier detects for the text. */
  predicate Candidate(t: TaskCategory, lowered: string) {
    Matches(t, lowered) || (t == Assistant && !AnyHit(lowered))
  }

  /** The detected categories as a set. */
  function CandidateSet(lowered: string): set<TaskCategory> {
    set t: TaskCategory | Candidate(t, lowered)
  }

  /** No keyword of any category occurs in the text. */
  predicate NoKeyword(lowered: string) {
    forall t: TaskCategory, w :: w in Keywords(t) ==> !IsSubstring(w, lowered)
  }

  /** Only categories with keywords can match, and those are exactly the tested ones. */
  lemma MatchesOnlyTested(t: TaskCategory, lowered: string)
    ensures Matches(t, lowered) ==> t in DetectionOrder && t != Assistant
  {
    DetectionOrderCoversKeywordCategories();
    if Matches(t, lowered) {
      var w :| w in Keywords(t) && IsSubstring(w, lowered);
      assert Keywords(t) != [];
    }
  }

  /** The hit list is empty exactly when no category matches. */
  lemma HitsEmptyIffNoHit(lowered: string)
    ensures Hits(DetectionOrder, lowered) == [] <==> !AnyHit(lowered)
  {
    var hits := Hits(DetectionOrder, lowered);
    if hits != [] {
      assert hits[0] in hits && Matches(hits[0], lowered);
    }
    if AnyHit(lowered) {
      var t :| Matches(t, lowered);
      MatchesOnlyTested(t, lowered);
      assert t in hits;
    }
  }

  /** The candidate list has no repetitions and holds exactly the detected set. */
  lemma CandidatesAreCandidateSet(lowered: string)
    ensures Distinct(Candidates(lowered))
    ensures forall t :: t in Candidates(lowered) <==> t in CandidateSet(lowered)
  {
    DetectionOrderCoversKeywordCategories();
    AllInPriorityOrder();
    HitsEmptyIffNoHit(lowered);
    forall t ensures t in Candidates(lowered) <==> t in CandidateSet(lowered) {
      MatchesOnlyTested(t, lowered);
    }
  }

  /** No keyword occurs exactly when no tested category matches. */
  lemma NoKeywordIffNoHit(lowered: string)
    ensures NoKeyword(lowered) <==> !AnyHit(lowered)
  {
    if !NoKeyword(lowered) {
      var t, w :| w in Keywords(t) && IsSubstring(w, lowered);
      assert Matches(t, lowered);
      MatchesOnlyTested(t, lowered);
    }
  }

  /**
   The detected set is never empty; it is `{assistant}` when no tested category
   matches, and otherwise does not contain the assistant.
   */
  lemma CandidateSetShape(lowered: string)
    ensures CandidateSet(lowered) != {}
    ensures !AnyHit(lowered) ==> CandidateSet(lowered) == {Assistant}
    ensures AnyHit(lowered) ==> Assistant !in CandidateSet(lowered)
  {
    assert Keywords(Assistant) == [];
    assert !Matches(Assistant, lowered);
    if AnyHit(lowered) {
      var t :| Matches(t, lowered);
      assert Candidate(t, lowered);
      assert t in CandidateSet(lowered);
      assert !Candidate(Assistant, lowered);
    } else {
      assert Candidate(Assistant, lowered);
      assert Assistant in CandidateSet(lowered);
      forall t | t in CandidateSet(lowered) ensures t == Assistant {
        assert Candidate(t, lowered) && !Matches(t, lowered);
      }
    }
  }

  /** The facts about the detected set that the classifier's contract rests on. */
  lemma CandidatesFacts(lowered: string)
    ensures Distinct(Candidates(lowered))
    ensures forall t :: t in Candidates(lowered) <==> t in CandidateSet(lowered)
    ensures CandidateSet(lowered) != {}
    ensures NoKeyword(lowered) <==> !AnyHit(lowered)
    ensures !AnyHit(lowered) ==> CandidateSet(lowered) == {Assistant}
    ensures AnyHit(lowered) ==> Assistant !in CandidateSet(lowered)
  {
    CandidatesAreCandidateSet(lowered);
    NoKeywordIffNoHit(lowered);
    CandidateSetShape(lowered);
  }

  /**
   `detect_tasks`: lower-case the text, collect the matching categories in the
   order they are tested (the assistant alone when none match), sort them by
   priority and keep the first two.
   */
  function DetectTasks(text: string): (r: seq<TaskCategory>)
    ensures 1 <= |r| <= 2
  {
    var cands := Candidates(Lower(text));
    assert |SortBy(PriorityKey, cands)| == |multiset(cands)|;
    TakeAtMost(SortBy(PriorityKey, cands), 2)
  }

  /**
   What `detect_tasks` returns: one or two distinct detected categories in
   priority order, every detected category that is dropped ranking after every
   kept one; the assistant alone exactly when no keyword occurs, and never
   beside another category; every label it returns has an entry in both
   configuration tables.
   */
  lemma DetectTasksSpec(text: string)
    ensures var r := DetectTasks(text);
      && StrictlyBy(PriorityKey, r)
      && (forall t :: t in r ==> t in CandidateSet(Lower(text)))
      && (forall c, t :: c in CandidateSet(Lower(text)) && c !in r && t in r ==> PriorityKey(t) < PriorityKey(c))
      && (|r| < 2 ==> forall c :: c in CandidateSet(Lower(text)) ==> c in r)
      && (r == [Assistant] <==> NoKeyword(Lower(text)))
      && (Assistant in r ==> r == [Assistant])
      && (forall t :: t in r ==> Label(t) in ModelMap && Label(t) in TokenMap)
  {
    var lowered := Lower(text);
    var cands := Candidates(lowered);
    CandidatesFacts(lowered);
    PriorityKeyIsPosition();
    SortIsFilter(PriorityKey, PriorityOrder, cands, CandidateSet(lowered));
    TopTwoFacts(PriorityKey, PriorityOrder, CandidateSet(lowered));
    TablesTotal();
    var r := DetectTasks(text);
    assert r == TakeAtMost(Filter(PriorityOrder, CandidateSet(lowered)), 2);
    assert r[0] in r;
    assert |r| == 2 ==> r[0] != r[1];
  }

  /** `detect_tasks` is the first two detected categories taken in priority order. */
  lemma DetectTasksIsPriorityPrefix(text: string)
    ensures DetectTasks(text) == TakeAtMost(Filter(PriorityOrder, CandidateSet(Lower(text))), 2)
  {
    var lowered := Lower(text);
    CandidatesFacts(lowered);
    PriorityKeyIsPosition();
    SortIsFilter(PriorityKey, PriorityOrder, Candidates(lowered), CandidateSet(lowered));
  }

  /** Classification ignores letter case: a text and its lower-cased form agree. */
  lemma DetectTasksCaseInsensitive(text: string)
    ensures DetectTasks(Lower(text)) == DetectTasks(text)
  {
    LowerIdempotent(text);
  }
}
