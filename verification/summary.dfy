/**
 * The dashboard's summary cards over the filtered list: the total, the
 * totals of Need and of Want entries, and each as a percentage of the total
 * (0 when the total is not positive).
 */
module Summary {
  import opened Filtering

  /** `reduce((sum, e) => sum + e.amount, 0)`. Addition is exact here, so the
      order of the additions does not change the sum. */
  function Total(s: seq<Entry>): (r: real)
    ensures s == [] ==> r == 0.0
    ensures (forall e :: e in s ==> e.amount >= 0.0) ==> r >= 0.0
    decreases |s|
  {
    if s == [] then 0.0 else s[0].amount + Total(s[1..])
  }

  /** The test `e => e.type === kind`. */
  function OfKind(kind: string): Entry -> bool {
    (e: Entry) => e.kind == kind
  }

  /** The sum over the entries of one type. */
  function KindTotal(s: seq<Entry>, kind: string): (r: real)
    ensures (forall e :: e in s && e.kind == kind ==> e.amount >= 0.0) ==> r >= 0.0
  {
    Total(Keep(s, OfKind(kind)))
  }

  datatype Summary = Summary(
    total: real,
    needsTotal: real,
    wantsTotal: real,
    needsPercentage: real,
    wantsPercentage: real)

  /** The share of `part` in `total`, in percent, guarded against a total
      that is not positive. */
  function Percentage(part: real, total: real): (p: real)
    ensures total <= 0.0 ==> p == 0.0
    ensures total > 0.0 ==> p * total == part * 100.0
  {
    if total > 0.0 then part / total * 100.0 else 0.0
  }

  /** `calculateSummary`. */
  function Summarize(s: seq<Entry>): (r: Summary)
    ensures r.total == Total(s)
    ensures r.needsTotal == KindTotal(s, "Need") && r.wantsTotal == KindTotal(s, "Want")
    ensures r.needsPercentage == Percentage(r.needsTotal, r.total)
    ensures r.wantsPercentage == Percentage(r.wantsTotal, r.total)
    ensures r.total <= 0.0 ==> r.needsPercentage == 0.0 && r.wantsPercentage == 0.0
  {
    var total := Total(s);
    var needs := KindTotal(s, "Need");
    var wants := KindTotal(s, "Want");
    Summary(total, needs, wants, Percentage(needs, total), Percentage(wants, total))
  }

  /** Every entry is a Need or a Want, as the schema demands. */
  predicate NeedOrWant(s: seq<Entry>) {
    forall e :: e in s ==> e.kind == "Need" || e.kind == "Want"
  }

  /** The Need and Want totals partition the total. */
  lemma {:induction false} NeedsPlusWants(s: seq<Entry>)
    requires NeedOrWant(s)
    ensures KindTotal(s, "Need") + KindTotal(s, "Want") == Total(s)
    decreases |s|
  {
    if s != [] {
      assert forall e :: e in s[1..] ==> e in s;
      NeedsPlusWants(s[1..]);
    }
  }

  /** With no negative amount, each type's total lies between 0 and the total. */
  lemma {:induction false} KindTotalBounded(s: seq<Entry>, kind: string)
    requires forall e :: e in s ==> e.amount >= 0.0
    ensures 0.0 <= KindTotal(s, kind) <= Total(s)
    decreases |s|
  {
    if s != [] {
      assert forall e :: e in s[1..] ==> e in s;
      KindTotalBounded(s[1..], kind);
    }
  }

  /** The summary's three sums, and the partition of the total. */
  lemma SummaryTotals(s: seq<Entry>)
    requires NeedOrWant(s)
    ensures var r := Summarize(s);
            r.total == Total(s) && r.needsTotal + r.wantsTotal == r.total
  {
    NeedsPlusWants(s);
  }

  /** Shares of a positive total that add up to it add up to 100 percent. */
  lemma SharesAddUp(part1: real, part2: real, total: real)
    requires total > 0.0 && part1 + part2 == total
    ensures Percentage(part1, total) + Percentage(part2, total) == 100.0
  {
    assert part1 / total + part2 / total == (part1 + part2) / total;
  }

  /** With a positive total, the two percentages add up to 100. */
  lemma PercentagesAddUp(s: seq<Entry>)
    requires NeedOrWant(s)
    requires Total(s) > 0.0
    ensures Summarize(s).needsPercentage + Summarize(s).wantsPercentage == 100.0
  {
    NeedsPlusWants(s);
    SharesAddUp(KindTotal(s, "Need"), KindTotal(s, "Want"), Total(s));
  }

  /** Two entries of one owner, a Need of 10 and a Want of 30: total 40,
      25 and 75 percent. */
  lemma TwoEntryExample(food: Entry, travel: Entry)
    requires food == Entry(1, "Lunch", 10.0, "Food", "Need", "2024-01-01T00:00:00.000Z", "u@x.com")
    requires travel == Entry(2, "Train", 30.0, "Travel", "Want", "2024-01-02T00:00:00.000Z", "u@x.com")
    ensures Summarize([food, travel]) == Summary(40.0, 10.0, 30.0, 25.0, 75.0)
  {
    var s := [food, travel];
    assert s[1..] == [travel];
    assert [travel][1..] == [];
    assert Total([travel]) == 30.0;
    assert Total(s) == 40.0;
    assert Keep(s, OfKind("Need")) == [food];
    assert Keep(s, OfKind("Want")) == [travel];
    assert Total([food]) == 10.0 && Total([travel]) == 30.0;
    assert Percentage(10.0, 40.0) == 25.0 && Percentage(30.0, 40.0) == 75.0;
  }
}
