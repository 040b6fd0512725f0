/**
 * The JSON-backed content store: exercises, training complexes, education
 * materials and terminology, held as lists loaded from disk, with keyword search
 * and lookup by id. Loading is not modelled: the constructor receives the lists
 * `_reload` would leave.
 */
module JsonDb {
  import opened Wrappers
  import opened Text

  /** An exercise: `id` is the text of its id, a missing name or description is "". */
  datatype Exercise = Exercise(id: string, name: string, keywords: seq<string>, description: string)

  /** An education material or a training complex: its id and the rest of the record. */
  datatype Record = Record(id: string, fields: map<string, string>)

  /** A terminology entry; a missing term is "". */
  datatype Term = Term(term: string, definition: string)

  function ExerciseId(ex: Exercise): string {
    ex.id
  }

  function RecordId(r: Record): string {
    r.id
  }

  /** `_match_keywords(text, query)`: an empty query matches; otherwise every word of the query occurs in the normalised text. */
  predicate MatchKeywords(text: string, query: string) {
    query == [] || forall w :: w in Words(query) ==> Contains(Normalize(text), w)
  }

  /** A query that occurs in an already lowercased text matches it by keywords too. */
  lemma ContainedQueryMatches(text: string, q: string)
    requires Lower(text) == text && Contains(text, q)
    ensures MatchKeywords(text, q)
  {
    WordsFromAreInfixes(q, 0);
    forall w | w in Words(q) ensures Contains(Normalize(text), w) {
      ContainsTransitive(text, q, w);
      forall k | 0 <= k < |w| ensures !IsSpace(w[k]) {
        if IsSpace(w[k]) {
          SpaceIsNotWord(w[k]);
        }
      }
      StripKeepsSolid(text, w);
    }
  }

  // ---- exercises ------------------------------------------------------------------

  /** The text an exercise is searched in: "name keywords description", lowercased. */
  function Searchable(ex: Exercise): string {
    Lower(ex.name) + " " + Lower(Join(ex.keywords, " ")) + " " + Lower(ex.description)
  }

  lemma SearchableIsLower(ex: Exercise)
    ensures Lower(Searchable(ex)) == Searchable(ex)
  {
    var a, b, c := Lower(ex.name), Lower(Join(ex.keywords, " ")), Lower(ex.description);
    LowerIdempotent(ex.name);
    LowerIdempotent(Join(ex.keywords, " "));
    LowerIdempotent(ex.description);
    LowerConcat(a + " " + b + " ", c);
    LowerConcat(a + " " + b, " ");
    LowerConcat(a + " ", b);
    LowerConcat(a, " ");
  }

  /** The test `search_exercises` applies: the query occurs in the lowercased name, or matches by keywords. */
  predicate ExerciseHit(ex: Exercise, q: string) {
    Contains(Lower(ex.name), q) || MatchKeywords(Searchable(ex), q)
  }

  /** The first element of `xs` that satisfies `keep`: a loop that returns at its first match. */
  function First<T>(xs: seq<T>, keep: T -> bool): (r: Option<T>)
    ensures r.Some? ==> r.value in xs && keep(r.value)
    ensures r.None? <==> forall k :: 0 <= k < |xs| ==> !keep(xs[k])
    ensures forall k :: 0 <= k < |xs| && keep(xs[k]) && (forall j :: 0 <= j < k ==> !keep(xs[j]))
              ==> r == Some(xs[k])
    decreases |xs|
  {
    if xs == [] then None
    else if keep(xs[0]) then Some(xs[0])
    else
      var r := First(xs[1..], keep);
      assert forall k :: 1 <= k < |xs| ==> xs[k] == xs[1..][k - 1];
      r
  }

  /** The elements of `xs` that satisfy `keep`, in their order: a list comprehension with a condition. */
  function Filter<T>(xs: seq<T>, keep: T -> bool): (r: seq<T>)
    ensures |r| <= |xs|
    decreases |xs|
  {
    if xs == [] then []
    else Filter(xs[..|xs| - 1], keep) + (if keep(xs[|xs| - 1]) then [xs[|xs| - 1]] else [])
  }

  lemma {:induction false} FilterExactly<T>(xs: seq<T>, keep: T -> bool)
    ensures forall x :: x in Filter(xs, keep) <==> x in xs && keep(x)
    decreases |xs|
  {
    if xs != [] {
      var init, last := xs[..|xs| - 1], xs[|xs| - 1];
      FilterExactly(init, keep);
      assert xs == init + [last];
    }
  }

  /** `pos` lists, in increasing order, positions of `xs` whose elements, seen through `view`, are those of `r`, one by one. */
  ghost predicate Positions<T, U>(xs: seq<T>, view: T -> U, r: seq<U>, pos: seq<nat>) {
    && |pos| == |r|
    && (forall k :: 0 <= k < |pos| ==> pos[k] < |xs| && view(xs[pos[k]]) == r[k])
    && (forall i, j :: 0 <= i < j < |pos| ==> pos[i] < pos[j])
  }

  /** Positions in a prefix are positions in the whole sequence, and a position past them all can follow them. */
  lemma AppendPosition<T, U>(xs: seq<T>, view: T -> U, r0: seq<U>, before: seq<nat>, last: nat)
    requires last < |xs| && Positions(xs[..last], view, r0, before)
    ensures Positions(xs, view, r0, before)
    ensures Positions(xs, view, r0 + [view(xs[last])], before + [last])
  {
    var pos, r := before + [last], r0 + [view(xs[last])];
    assert forall k :: 0 <= k < |before| ==> before[k] < last && xs[before[k]] == xs[..last][before[k]];
    assert forall k :: 0 <= k < |before| ==> pos[k] == before[k] && r[k] == r0[k];
  }

  lemma {:induction false} FilterInOrder<T>(xs: seq<T>, keep: T -> bool) returns (pos: seq<nat>)
    ensures Positions(xs, x => x, Filter(xs, keep), pos)
    decreases |xs|
  {
    if xs == [] {
      pos := [];
    } else {
      var last := |xs| - 1;
      var before := FilterInOrder(xs[..last], keep);
      var r0 := Filter(xs[..last], keep);
      AppendPosition(xs, x => x, r0, before, last);
      if keep(xs[last]) {
        assert Filter(xs, keep) == r0 + [xs[last]];
        pos := before + [last];
      } else {
        assert Filter(xs, keep) == r0;
        pos := before;
      }
    }
  }

  lemma {:induction false} FilterSame<T>(xs: seq<T>, a: T -> bool, b: T -> bool)
    requires forall k :: 0 <= k < |xs| ==> a(xs[k]) == b(xs[k])
    ensures Filter(xs, a) == Filter(xs, b)
    decreases |xs|
  {
    if xs != [] {
      FilterSame(xs[..|xs| - 1], a, b);
    }
  }

  /** The exercises that pass the test, in stored order. */
  function ExerciseHits(exs: seq<Exercise>, q: string): seq<Exercise> {
    Filter(exs, ex => ExerciseHit(ex, q))
  }

  /** One more exercise scanned adds it to the hits exactly when it passes the test. */
  lemma ExerciseHitsStep(exs: seq<Exercise>, i: nat, q: string)
    requires i < |exs|
    ensures ExerciseHits(exs[..i + 1], q) == ExerciseHits(exs[..i], q) + (if ExerciseHit(exs[i], q) then [exs[i]] else [])
  {
    assert exs[..i + 1][..i] == exs[..i];
  }

  /** The hits are exactly the stored exercises that pass the test. */
  lemma ExerciseHitsExactly(exs: seq<Exercise>, q: string)
    ensures forall ex :: ex in ExerciseHits(exs, q) <==> ex in exs && ExerciseHit(ex, q)
  {
    FilterExactly(exs, ex => ExerciseHit(ex, q));
  }

  /** The hits keep their stored order: they sit at strictly increasing positions of the stored list. */
  lemma ExerciseHitsInOrder(exs: seq<Exercise>, q: string) returns (pos: seq<nat>)
    ensures Positions(exs, ex => ex, ExerciseHits(exs, q), pos)
  {
    pos := FilterInOrder(exs, ex => ExerciseHit(ex, q));
  }

  /** The name test adds nothing: an exercise whose name holds the query matches by keywords. */
  lemma ExerciseHitIsKeywordMatch(ex: Exercise, q: string)
    ensures ExerciseHit(ex, q) <==> MatchKeywords(Searchable(ex), q)
  {
    if Contains(Lower(ex.name), q) {
      var name := Lower(ex.name);
      var rest := " " + Lower(Join(ex.keywords, " ")) + " " + Lower(ex.description);
      assert Searchable(ex) == name + rest;
      ContainsPrefix(name, rest, q);
      SearchableIsLower(ex);
      ContainedQueryMatches(Searchable(ex), q);
    }
  }

  /** The exercises that match by keywords alone, in stored order. */
  function KeywordHits(exs: seq<Exercise>, q: string): seq<Exercise> {
    Filter(exs, ex => MatchKeywords(Searchable(ex), q))
  }

  /** So the search result is exactly the keyword matches, in stored order. */
  lemma ExerciseHitsAreKeywordHits(exs: seq<Exercise>, q: string)
    ensures ExerciseHits(exs, q) == KeywordHits(exs, q)
  {
    forall k | 0 <= k < |exs|
      ensures ExerciseHit(exs[k], q) == MatchKeywords(Searchable(exs[k]), q)
    {
      ExerciseHitIsKeywordMatch(exs[k], q);
    }
    FilterSame(exs, ex => ExerciseHit(ex, q), ex => MatchKeywords(Searchable(ex), q));
  }

  // ---- terminology ----------------------------------------------------------------

  /** The test `search_terminology` applies to one entry: equal to, contained in, or matching by keywords the lowercased term. */
  predicate TermHit(item: Term, t: string) {
    var name := Lower(item.term);
    t == name || Contains(name, t) || MatchKeywords(name, t)
  }

  /** The first entry that passes the test. */
  function FirstTermHit(items: seq<Term>, t: string): (r: Option<Term>)
    ensures r.Some? ==> r.value in items && TermHit(r.value, t)
    ensures r.None? <==> forall k :: 0 <= k < |items| ==> !TermHit(items[k], t)
    ensures forall k :: 0 <= k < |items| && TermHit(items[k], t) && (forall j :: 0 <= j < k ==> !TermHit(items[j], t))
              ==> r == Some(items[k])
  {
    First(items, item => TermHit(item, t))
  }

  /** Equality and containment add nothing: an entry passes exactly when it matches by keywords. */
  lemma TermHitIsKeywordMatch(item: Term, t: string)
    ensures TermHit(item, t) <==> MatchKeywords(Lower(item.term), t)
  {
    var name := Lower(item.term);
    if t == name || Contains(name, t) {
      if t == name {
        ContainsSelf(name);
      }
      LowerIdempotent(item.term);
      ContainedQueryMatches(name, t);
    }
  }

  // ---- lookup by id ---------------------------------------------------------------

  /** `r` is the first item whose id is `id`, or `None` when no item has it. */
  predicate FirstWithId<T(==)>(items: seq<T>, idOf: T -> string, id: string, r: Option<T>) {
    && (r.None? <==> forall k :: 0 <= k < |items| ==> idOf(items[k]) != id)
    && (r.Some? ==> exists k :: 0 <= k < |items| && items[k] == r.value && idOf(items[k]) == id
                                && forall j :: 0 <= j < k ==> idOf(items[j]) != id)
  }

  /** There is only one first match. */
  lemma FirstWithIdUnique<T>(items: seq<T>, idOf: T -> string, id: string, r1: Option<T>, r2: Option<T>)
    requires FirstWithId(items, idOf, id, r1) && FirstWithId(items, idOf, id, r2)
    ensures r1 == r2
  {
    if r1.Some? && r2.Some? {
      var k1 :| 0 <= k1 < |items| && items[k1] == r1.value && idOf(items[k1]) == id
                 && forall j :: 0 <= j < k1 ==> idOf(items[j]) != id;
      var k2 :| 0 <= k2 < |items| && items[k2] == r2.value && idOf(items[k2]) == id
                 && forall j :: 0 <= j < k2 ==> idOf(items[j]) != id;
      assert k1 == k2;
    }
  }

  /** The linear scan of the `get_*_by_id` methods, returning at the first match. */
  method FindById<T(==)>(items: seq<T>, idOf: T -> string, id: string) returns (r: Option<T>)
    ensures FirstWithId(items, idOf, id, r)
  {
    for i := 0 to |items|
      invariant forall j :: 0 <= j < i ==> idOf(items[j]) != id
    {
      if idOf(items[i]) == id {
        return Some(items[i]);
      }
    }
    return None;
  }

  // ---- the store ------------------------------------------------------------------

  /** The non-empty terms, in stored order. */
  function TermsOf(items: seq<Term>): (r: seq<string>)
    ensures |r| <= |items|
    decreases |items|
  {
    if items == [] then []
    else
      var init, last := items[..|items| - 1], items[|items| - 1];
      TermsOf(init) + (if last.term != [] then [last.term] else [])
  }

  /** Every listed term is non-empty, and every entry with a non-empty term is listed. */
  lemma {:induction false} TermsOfExactly(items: seq<Term>)
    ensures forall t :: t in TermsOf(items) ==> t != []
    ensures forall item :: item in items && item.term != [] ==> item.term in TermsOf(items)
    decreases |items|
  {
    if items != [] {
      var init, last := items[..|items| - 1], items[|items| - 1];
      TermsOfExactly(init);
      assert items == init + [last];
    }
  }

  /** The terms keep their stored order: they come from strictly increasing positions of the stored list. */
  lemma {:induction false} TermsInOrder(items: seq<Term>) returns (pos: seq<nat>)
    ensures Positions(items, (item: Term) => item.term, TermsOf(items), pos)
    decreases |items|
  {
    if items == [] {
      pos := [];
    } else {
      var last := |items| - 1;
      var before := TermsInOrder(items[..last]);
      AppendPosition(items, (item: Term) => item.term, TermsOf(items[..last]), before, last);
      if items[last].term != [] {
        assert TermsOf(items) == TermsOf(items[..last]) + [items[last].term];
        pos := before + [last];
      } else {
        assert TermsOf(items) == TermsOf(items[..last]);
        pos := before;
      }
    }
  }

  class JsonDB {
    var exercises: seq<Exercise>
    var complexes: seq<Record>
    var education: seq<Record>
    var terminology: seq<Term>

    /** The store as `_reload` leaves it; a missing or unreadable file loads as an empty list. */
    constructor (exercises: seq<Exercise>, complexes: seq<Record>, education: seq<Record>, terminology: seq<Term>)
      ensures this.exercises == exercises && this.complexes == complexes
      ensures this.education == education && this.terminology == terminology
    {
      this.exercises := exercises;
      this.complexes := complexes;
      this.education := education;
      this.terminology := terminology;
    }

    /** `search_exercises(query)`. */
    method SearchExercises(query: string) returns (results: seq<Exercise>)
      ensures Normalize(query) == [] ==> results == []
      ensures Normalize(query) != [] ==> results == ExerciseHits(exercises, Normalize(query))
    {
      var q := Normalize(query);
      if q == [] {
        return [];
      }
      results := [];
      for i := 0 to |exercises|
        invariant results == ExerciseHits(exercises[..i], q)
      {
        var ex := exercises[i];
        ExerciseHitsStep(exercises, i, q);
        if ExerciseHit(ex, q) {
          results := results + [ex];
        }
      }
      assert exercises[..|exercises|] == exercises;
    }

    /** `get_exercise_by_id(exercise_id)`. */
    method GetExerciseById(id: string) returns (r: Option<Exercise>)
      ensures FirstWithId(exercises, ExerciseId, id, r)
    {
      r := FindById(exercises, ExerciseId, id);
    }

    /** `get_all_education()`: a copy of the stored list. */
    method GetAllEducation() returns (r: seq<Record>)
      ensures r == education
    {
      r := education;
    }

    /** `get_education_by_id(education_id)`. */
    method GetEducationById(id: string) returns (r: Option<Record>)
      ensures FirstWithId(education, RecordId, id, r)
    {
      r := FindById(education, RecordId, id);
    }

    /** `get_all_complexes()`: a copy of the stored list. */
    method GetAllComplexes() returns (r: seq<Record>)
      ensures r == complexes
    {
      r := complexes;
    }

    /** `get_complex_by_id(complex_id)`. */
    method GetComplexById(id: string) returns (r: Option<Record>)
      ensures FirstWithId(complexes, RecordId, id, r)
    {
      r := FindById(complexes, RecordId, id);
    }

    /** `search_terminology(term)`: the first entry that passes, returning at the first hit. */
    method SearchTerminology(term: string) returns (r: Option<Term>)
      ensures Normalize(term) == [] ==> r.None?
      ensures Normalize(term) != [] ==> r == FirstTermHit(terminology, Normalize(term))
    {
      var t := Normalize(term);
      if t == [] {
        return None;
      }
      for i := 0 to |terminology|
        invariant FirstTermHit(terminology[i..], t) == FirstTermHit(terminology, t)
      {
        var item := terminology[i];
        var name := Lower(item.term);
        if t == name || Contains(name, t) || MatchKeywords(name, t) {
          return Some(item);
        }
        assert terminology[i..][1..] == terminology[i + 1..];
      }
      return None;
    }

    /** `get_all_terms()`. */
    function GetAllTerms(): (r: seq<string>)
      reads this
      ensures forall t :: t in r ==> t != []
      ensures forall item :: item in terminology && item.term != [] ==> item.term in r
    {
      TermsOfExactly(terminology);
      TermsOf(terminology)
    }
  }
}
