/**
 * The expense document as the database schema declares it: six required
 * fields, two enumerations, a lower bound on the amount and a title that is
 * trimmed before it is stored.
 */
module Schema {

  /** A stored expense. `kind` is the schema's `type` field (a keyword here);
      `date` is a day number, so dates are totally ordered. */
  datatype Expense = Expense(
    id: nat,
    title: string,
    amount: real,
    category: string,
    kind: string,
    date: int,
    userEmail: string)

  /** The ten values the schema admits for `category`. */
  const Categories: seq<string> :=
    ["Food", "Travel", "Shopping", "Tools", "Transport",
     "Rent", "Utilities", "Subscriptions", "Education", "Other"]

  /** The two values the schema admits for `type`. */
  const Kinds: seq<string> := ["Need", "Want"]

  /** The white space and line terminators that JavaScript's `trim`
      removes: tab, line feed, vertical tab, form feed, carriage return, the
      space separators of Unicode (category Zs), the two Unicode line and
      paragraph separators and the byte-order mark. */
  predicate IsSpace(c: char) {
    || ('\t' <= c <= '\r')
    || c == ' ' || c == '\U{00A0}' || c == '\U{1680}'
    || ('\U{2000}' <= c <= '\U{200A}')
    || c == '\U{2028}' || c == '\U{2029}' || c == '\U{202F}'
    || c == '\U{205F}' || c == '\U{3000}' || c == '\U{FEFF}'
  }

  /** No white space at either end. */
  predicate Trimmed(s: string) {
    s == [] || (!IsSpace(s[0]) && !IsSpace(s[|s| - 1]))
  }

  /** Drops leading white space: what is dropped is all space, what is kept
      does not start with space. */
  function TrimStart(s: string): (r: string)
    ensures |r| <= |s| && r == s[|s| - |r|..]
    ensures r == [] || !IsSpace(r[0])
    ensures forall i :: 0 <= i < |s| - |r| ==> IsSpace(s[i])
    decreases |s|
  {
    if s != [] && IsSpace(s[0]) then TrimStart(s[1..]) else s
  }

  /** Drops trailing white space. */
  function TrimEnd(s: string): (r: string)
    ensures |r| <= |s| && r == s[..|r|]
    ensures r == [] || !IsSpace(r[|r| - 1])
    ensures forall i :: |r| <= i < |s| ==> IsSpace(s[i])
    decreases |s|
  {
    if s != [] && IsSpace(s[|s| - 1]) then TrimEnd(s[..|s| - 1]) else s
  }

  /** JavaScript's `String.prototype.trim`, the schema's `trim: true`: no
      white space is left at either end. */
  function Trim(s: string): (r: string)
    ensures Trimmed(r) && |r| <= |s|
  {
    var t := TrimStart(s);
    var r := TrimEnd(t);
    assert r != [] ==> r[0] == t[0];
    r
  }

  /** A prefix of a suffix of `s` is a slice of `s`. */
  lemma PrefixOfSuffix(s: string, lead: nat, r: string)
    requires lead <= |s| && |r| <= |s| - lead && r == s[lead..][..|r|]
    ensures r == s[lead..lead + |r|]
    ensures forall i :: lead + |r| <= i < |s| ==> s[i] == s[lead..][i - lead]
  {
  }

  /** How many characters of leading white space `s` has. */
  function Lead(s: string): nat {
    |s| - |TrimStart(s)|
  }

  /** What trimming drops at the end is white space. */
  lemma TrimTailIsSpace(s: string)
    ensures forall i :: Lead(s) + |Trim(s)| <= i < |s| ==> IsSpace(s[i])
  {
    var t := TrimStart(s);
    var r := TrimEnd(t);
    var lead := |s| - |t|;
    assert Trim(s) == r;
    forall i | lead + |r| <= i < |s|
      ensures IsSpace(s[i])
    {
      assert s[i] == t[i - lead];
    }
  }

  /** Trimming removes white space only, and only at the ends: the result is
      the slice of `s` between a run of leading and a run of trailing space. */
  lemma TrimDropsOnlySpace(s: string)
    ensures Lead(s) + |Trim(s)| <= |s|
    ensures Trim(s) == s[Lead(s)..Lead(s) + |Trim(s)|]
    ensures forall i :: 0 <= i < Lead(s) ==> IsSpace(s[i])
    ensures forall i :: Lead(s) + |Trim(s)| <= i < |s| ==> IsSpace(s[i])
  {
    var t := TrimStart(s);
    var r := TrimEnd(t);
    var lead := |s| - |t|;
    assert Trim(s) == r;
    PrefixOfSuffix(s, lead, r);
    TrimTailIsSpace(s);
  }

  /** A string with no space at its ends is its own trim. */
  lemma TrimmedIsFixed(s: string)
    requires Trimmed(s)
    ensures Trim(s) == s
  {
    assert TrimStart(s) == s;
  }

  /** Trimming twice is trimming once. */
  lemma TrimIdempotent(s: string)
    ensures Trim(Trim(s)) == Trim(s)
  {
    TrimmedIsFixed(Trim(s));
  }

  /** Every constraint the schema declares: the required fields (a required
      string may not be empty), the two enumerations, `min: 0` on the amount
      and the trimmed title. A day-number date is always present. */
  predicate SchemaValid(e: Expense) {
    && e.title != "" && Trimmed(e.title)
    && e.amount >= 0.0
    && e.category in Categories
    && e.kind in Kinds
    && e.userEmail != ""
  }

  /** What a valid document guarantees: one of the ten categories, Need or
      Want, a non-negative amount, non-empty title and owner, and a title
      that trimming leaves unchanged. */
  lemma ValidDocument(e: Expense)
    requires SchemaValid(e)
    ensures e.category in Categories && |Categories| == 10
    ensures e.kind == "Need" || e.kind == "Want"
    ensures e.amount >= 0.0 && e.title != "" && e.userEmail != ""
    ensures Trim(e.title) == e.title
  {
    TrimmedIsFixed(e.title);
  }

  /** The controller's stricter check on the amount implies the schema's:
      a strictly positive amount meets `min: 0`, so among documents that
      agree elsewhere only the non-amount constraints decide validity. */
  lemma PositiveAmountMeetsSchema(e: Expense)
    requires e.amount > 0.0
    ensures SchemaValid(e) <==>
      e.title != "" && Trimmed(e.title) && e.category in Categories
      && e.kind in Kinds && e.userEmail != ""
  {
  }
}
