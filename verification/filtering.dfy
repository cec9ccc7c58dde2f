/**
 * The dashboard's client-side filter: four optional predicates (category,
 * type, earliest date, latest date) applied one after another to the list
 * the server returned, each only when its filter field is non-empty.
 */
module Filtering {

  /** An expense as the dashboard holds it after parsing the JSON reply:
      `date` is the ISO-8601 text the server sent. */
  datatype Entry = Entry(
    id: nat,
    title: string,
    amount: real,
    category: string,
    kind: string,
    date: string,
    userEmail: string)

  /** The four filter fields; "" means the filter is off. */
  datatype Filters = Filters(category: string, kind: string, dateFrom: string, dateTo: string)

  const NoFilters := Filters("", "", "", "")

  /** JavaScript's `Array.prototype.filter`: the elements satisfying `p`,
      in their original order, each as often as it occurs. */
  function Keep(s: seq<Entry>, p: Entry -> bool): (r: seq<Entry>)
    ensures |r| <= |s|
    ensures forall e :: e in r <==> e in s && p(e)
    ensures forall e :: multiset(r)[e] == if p(e) then multiset(s)[e] else 0
  {
    if s == [] then []
    else
      assert s == [s[0]] + s[1..];
      if p(s[0]) then [s[0]] + Keep(s[1..], p) else Keep(s[1..], p)
  }

  /** `a` is `b` with some elements deleted: relative order is kept. */
  ghost predicate Subsequence(a: seq<Entry>, b: seq<Entry>)
    decreases |b|
  {
    if a == [] then true
    else if b == [] then false
    else (a[0] == b[0] && Subsequence(a[1..], b[1..])) || Subsequence(a, b[1..])
  }

  lemma {:induction false} KeepIsSubsequence(s: seq<Entry>, p: Entry -> bool)
    ensures Subsequence(Keep(s, p), s)
    decreases |s|
  {
    if s != [] {
      KeepIsSubsequence(s[1..], p);
      var r := Keep(s, p);
      if p(s[0]) {
        assert r[0] == s[0] && r[1..] == Keep(s[1..], p);
      } else {
        assert r == Keep(s[1..], p);
      }
    }
  }

  /** Filtering by predicates that agree on every element gives the same list. */
  lemma {:induction false} KeepCongruent(s: seq<Entry>, p: Entry -> bool, q: Entry -> bool)
    requires forall e :: e in s ==> p(e) == q(e)
    ensures Keep(s, p) == Keep(s, q)
    decreases |s|
  {
    if s != [] {
      KeepCongruent(s[1..], p, q);
    }
  }

  /** Two filters in a row are one filter by the conjunction. */
  lemma {:induction false} KeepKeep(s: seq<Entry>, p: Entry -> bool, q: Entry -> bool, pq: Entry -> bool)
    requires forall e :: pq(e) == (p(e) && q(e))
    ensures Keep(Keep(s, p), q) == Keep(s, pq)
    decreases |s|
  {
    if s != [] {
      KeepKeep(s[1..], p, q, pq);
    }
  }

  /** A predicate that holds everywhere keeps the whole list. */
  lemma {:induction false} KeepAll(s: seq<Entry>, p: Entry -> bool)
    requires forall e :: e in s ==> p(e)
    ensures Keep(s, p) == s
    decreases |s|
  {
    if s != [] {
      KeepAll(s[1..], p);
    }
  }

  /** The four stages of the filter. */
  datatype Stage = CategoryStage | KindStage | FromStage | ToStage

  /** Whether a stage is switched on: its filter field is non-empty. */
  predicate Active(st: Stage, f: Filters) {
    match st
    case CategoryStage => f.category != ""
    case KindStage => f.kind != ""
    case FromStage => f.dateFrom != ""
    case ToStage => f.dateTo != ""
  }

  /** The test a switched-on stage applies; `dateKey` stands for `new Date`,
      mapping date text to its position in time. */
  predicate Test(st: Stage, f: Filters, dateKey: string -> int, e: Entry) {
    match st
    case CategoryStage => e.category == f.category
    case KindStage => e.kind == f.kind
    case FromStage => dateKey(e.date) >= dateKey(f.dateFrom)
    case ToStage => dateKey(e.date) <= dateKey(f.dateTo)
  }

  /** What a stage lets through: everything when it is off. */
  predicate Admits(st: Stage, f: Filters, dateKey: string -> int, e: Entry) {
    Active(st, f) ==> Test(st, f, dateKey, e)
  }

  /** A stage's test as the callback handed to `filter`. */
  function StageTest(st: Stage, f: Filters, dateKey: string -> int): Entry -> bool {
    e => Test(st, f, dateKey, e)
  }

  /** One stage: `if (filters.x) filtered = filtered.filter(...)`. */
  function RunStage(st: Stage, s: seq<Entry>, f: Filters, dateKey: string -> int): seq<Entry> {
    if Active(st, f) then Keep(s, StageTest(st, f, dateKey)) else s
  }

  /** The stages run in the given order. */
  function Pipeline(order: seq<Stage>, s: seq<Entry>, f: Filters, dateKey: string -> int): seq<Entry>
    decreases |order|
  {
    if order == [] then s else Pipeline(order[1..], RunStage(order[0], s, f, dateKey), f, dateKey)
  }

  /** `applyFilters`: category, then type, then the lower and the upper date bound. */
  function ApplyFilters(s: seq<Entry>, f: Filters, dateKey: string -> int): seq<Entry> {
    var byCategory := RunStage(CategoryStage, s, f, dateKey);
    var byKind := RunStage(KindStage, byCategory, f, dateKey);
    var byFrom := RunStage(FromStage, byKind, f, dateKey);
    RunStage(ToStage, byFrom, f, dateKey)
  }

  /** `applyFilters` is the pipeline of the four stages in `applyFilters`'s order. */
  lemma ApplyFiltersIsPipeline(s: seq<Entry>, f: Filters, dateKey: string -> int)
    ensures ApplyFilters(s, f, dateKey) == Pipeline([CategoryStage, KindStage, FromStage, ToStage], s, f, dateKey)
  {
    var order := [CategoryStage, KindStage, FromStage, ToStage];
    assert order[1..] == [KindStage, FromStage, ToStage];
    assert order[1..][1..] == [FromStage, ToStage];
    assert order[1..][1..][1..] == [ToStage];
    assert order[1..][1..][1..][1..] == [];
  }

  /** An entry passes every non-empty filter. */
  predicate Matches(e: Entry, f: Filters, dateKey: string -> int) {
    && (f.category != "" ==> e.category == f.category)
    && (f.kind != "" ==> e.kind == f.kind)
    && (f.dateFrom != "" ==> dateKey(e.date) >= dateKey(f.dateFrom))
    && (f.dateTo != "" ==> dateKey(e.date) <= dateKey(f.dateTo))
  }

  /** The conjunction of the stages in `order`, as a predicate. */
  function AdmittedBy(order: seq<Stage>, f: Filters, dateKey: string -> int): Entry -> bool {
    e => forall st :: st in order ==> Admits(st, f, dateKey, e)
  }

  /** A stage is the filter by what it admits. */
  lemma RunStageIsKeep(st: Stage, s: seq<Entry>, f: Filters, dateKey: string -> int)
    ensures RunStage(st, s, f, dateKey) == Keep(s, e => Admits(st, f, dateKey, e))
  {
    if Active(st, f) {
      KeepCongruent(s, StageTest(st, f, dateKey), e => Admits(st, f, dateKey, e));
    } else {
      KeepAll(s, e => Admits(st, f, dateKey, e));
    }
  }

  /** Running stages one after another, in any order, is a single filter by
      the conjunction of the stages. */
  lemma {:induction false} PipelineIsConjunction(order: seq<Stage>, s: seq<Entry>, f: Filters, dateKey: string -> int)
    ensures Pipeline(order, s, f, dateKey) == Keep(s, AdmittedBy(order, f, dateKey))
    decreases |order|
  {
    if order == [] {
      KeepAll(s, AdmittedBy(order, f, dateKey));
    } else {
      var st := order[0];
      var first := e => Admits(st, f, dateKey, e);
      RunStageIsKeep(st, s, f, dateKey);
      PipelineIsConjunction(order[1..], Keep(s, first), f, dateKey);
      assert forall e :: AdmittedBy(order, f, dateKey)(e) == (first(e) && AdmittedBy(order[1..], f, dateKey)(e)) by {
        forall e ensures AdmittedBy(order, f, dateKey)(e) == (first(e) && AdmittedBy(order[1..], f, dateKey)(e)) {
          assert forall x :: x in order <==> x == st || x in order[1..];
        }
      }
      KeepKeep(s, first, AdmittedBy(order[1..], f, dateKey), AdmittedBy(order, f, dateKey));
    }
  }

  /** The filtered list is the input restricted to the entries that pass
      every non-empty filter. */
  lemma ApplyFiltersIsKeep(s: seq<Entry>, f: Filters, dateKey: string -> int)
    ensures ApplyFilters(s, f, dateKey) == Keep(s, e => Matches(e, f, dateKey))
  {
    var order := [CategoryStage, KindStage, FromStage, ToStage];
    ApplyFiltersIsPipeline(s, f, dateKey);
    PipelineIsConjunction(order, s, f, dateKey);
    forall e ensures AdmittedBy(order, f, dateKey)(e) == Matches(e, f, dateKey) {
      assert CategoryStage in order && KindStage in order && FromStage in order && ToStage in order;
    }
    KeepCongruent(s, AdmittedBy(order, f, dateKey), e => Matches(e, f, dateKey));
  }

  /** Soundness and completeness: an entry is shown exactly when it is in the
      list and passes every non-empty filter, as often as it occurs there;
      and the shown list keeps the list's order. */
  lemma FilterSoundComplete(s: seq<Entry>, f: Filters, dateKey: string -> int)
    ensures forall e :: e in ApplyFilters(s, f, dateKey) <==> e in s && Matches(e, f, dateKey)
    ensures forall e ::
      multiset(ApplyFilters(s, f, dateKey))[e] == (if Matches(e, f, dateKey) then multiset(s)[e] else 0)
    ensures Subsequence(ApplyFilters(s, f, dateKey), s)
  {
    ApplyFiltersIsKeep(s, f, dateKey);
    KeepIsSubsequence(s, e => Matches(e, f, dateKey));
  }

  /** The stages commute: running all four in any order, each at least once,
      gives the list `applyFilters` gives. */
  lemma StageOrderIrrelevant(order: seq<Stage>, s: seq<Entry>, f: Filters, dateKey: string -> int)
    requires forall st: Stage :: st in order
    ensures Pipeline(order, s, f, dateKey) == ApplyFilters(s, f, dateKey)
  {
    PipelineIsConjunction(order, s, f, dateKey);
    ApplyFiltersIsKeep(s, f, dateKey);
    forall e ensures AdmittedBy(order, f, dateKey)(e) == Matches(e, f, dateKey) {
      assert CategoryStage in order && KindStage in order && FromStage in order && ToStage in order;
    }
    KeepCongruent(s, AdmittedBy(order, f, dateKey), e => Matches(e, f, dateKey));
  }

  /** Filtering by two fields equals filtering by each alone and intersecting:
      setting the category filter and then the type filter, or the other way
      round, shows the same list. */
  lemma TwoFiltersCommute(s: seq<Entry>, category: string, kind: string, dateKey: string -> int)
    ensures var both := Filters(category, kind, "", "");
            ApplyFilters(s, both, dateKey)
            == ApplyFilters(ApplyFilters(s, Filters(category, "", "", ""), dateKey), Filters("", kind, "", ""), dateKey)
            == ApplyFilters(ApplyFilters(s, Filters("", kind, "", ""), dateKey), Filters(category, "", "", ""), dateKey)
  {
    var both := Filters(category, kind, "", "");
    var byCategory := Filters(category, "", "", "");
    var byKind := Filters("", kind, "", "");
    ApplyFiltersIsKeep(s, both, dateKey);
    ApplyFiltersIsKeep(s, byCategory, dateKey);
    ApplyFiltersIsKeep(s, byKind, dateKey);
    ApplyFiltersIsKeep(Keep(s, e => Matches(e, byCategory, dateKey)), byKind, dateKey);
    ApplyFiltersIsKeep(Keep(s, e => Matches(e, byKind, dateKey)), byCategory, dateKey);
    KeepKeep(s, e => Matches(e, byCategory, dateKey), e => Matches(e, byKind, dateKey), e => Matches(e, both, dateKey));
    KeepKeep(s, e => Matches(e, byKind, dateKey), e => Matches(e, byCategory, dateKey), e => Matches(e, both, dateKey));
  }

  /** With every filter field empty the whole list is shown. */
  lemma NoFiltersShowAll(s: seq<Entry>, dateKey: string -> int)
    ensures ApplyFilters(s, NoFilters, dateKey) == s
  {
  }
}
