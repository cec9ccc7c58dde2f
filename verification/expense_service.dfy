/**
 * The four request handlers of the expense API over an in-memory keyed
 * store: list by owner, add, update and delete. Each handler validates its
 * input before it touches the store and answers with a status code and a
 * message.
 */
module ExpenseService {
  import opened Wrappers
  import opened Schema

  /** A document identifier; the store hands them out in increasing order. */
  type Id = nat

  datatype Status = Ok | Created | BadRequest | NotFound | ServerError {
    /** The HTTP status code of the response. */
    function Code(): (c: int)
      ensures 200 <= c < 600
      ensures (c < 300) <==> (this == Ok || this == Created)
    {
      match this
      case Ok => 200
      case Created => 201
      case BadRequest => 400
      case NotFound => 404
      case ServerError => 500
    }
  }

  /** The status of a response and the message it carries. */
  datatype Reply = Reply(status: Status, message: string)

  const UserRequired := "User email is required"
  const AllFieldsRequired := "All fields are required"
  const AmountNotPositive := "Amount must be greater than 0"
  const ExpenseNotFound := "Expense not found"
  const ExpenseAdded := "Expense added successfully"
  const ExpenseUpdated := "Expense updated successfully"
  const ExpenseDeleted := "Expense deleted successfully"
  const AddFailed := "Server error while adding expense"

  /** The five editable fields of a request body. A string field is "" when
      it is missing or empty; `amount` is None when it is missing, null or
      NaN; `date` is None when it is missing or empty. */
  datatype ExpenseFields = ExpenseFields(
    title: string,
    amount: Option<real>,
    category: string,
    kind: string,
    date: Option<int>)

  /** JavaScript truthiness of the amount: missing, null, NaN and 0 are falsy. */
  predicate AmountTruthy(amount: Option<real>) {
    amount.Some? && amount.value != 0.0
  }

  /** Every one of the five fields is truthy. */
  predicate FieldsPresent(f: ExpenseFields) {
    f.title != "" && AmountTruthy(f.amount) && f.category != "" && f.kind != "" && f.date.Some?
  }

  datatype Verdict = Accept | Reject(message: string)

  /** The checks shared by add and update, in their order: presence, then a
      positive amount. Category and type are not checked against the schema's
      enumerations here. */
  function ValidateFields(f: ExpenseFields): (v: Verdict)
    ensures v.Accept? <==> FieldsPresent(f) && f.amount.value > 0.0
    ensures v.Accept? ==> f.amount.Some? && f.amount.value > 0.0 && f.date.Some?
    ensures !FieldsPresent(f) ==> v == Reject(AllFieldsRequired)
    ensures f.amount == Some(0.0) ==> v == Reject(AllFieldsRequired)
    ensures FieldsPresent(f) && f.amount.value <= 0.0 ==> v == Reject(AmountNotPositive)
    ensures v.Reject? ==> v.message in {AllFieldsRequired, AmountNotPositive}
  {
    if !FieldsPresent(f) then Reject(AllFieldsRequired)
    else if f.amount.value <= 0.0 then Reject(AmountNotPositive)
    else Accept
  }

  /** The add handler's checks: the five fields and the owner's email. */
  function ValidateAdd(f: ExpenseFields, userEmail: string): (v: Verdict)
    ensures v.Accept? <==> ValidateFields(f).Accept? && userEmail != ""
    ensures userEmail == "" ==> v == Reject(AllFieldsRequired)
    ensures userEmail != "" ==> v == ValidateFields(f)
    ensures v.Accept? ==> f.amount.Some? && f.amount.value > 0.0 && f.date.Some?
  {
    if !FieldsPresent(f) || userEmail == "" then Reject(AllFieldsRequired)
    else ValidateFields(f)
  }

  /** The document an accepted add request builds; the schema trims the title. */
  function Draft(f: ExpenseFields, userEmail: string, id: Id): (e: Expense)
    requires ValidateFields(f).Accept?
    ensures e.id == id && e.userEmail == userEmail && e.amount > 0.0
    ensures e.title == Trim(f.title) && Trimmed(e.title) && e.amount == f.amount.value
    ensures e.category == f.category && e.kind == f.kind && e.date == f.date.value
  {
    Expense(id, Trim(f.title), f.amount.value, f.category, f.kind, f.date.value, userEmail)
  }

  /** The document after an accepted update: the five fields are overwritten
      (the title trimmed), the identifier and the owner are kept. */
  function Revise(e: Expense, f: ExpenseFields): (r: Expense)
    requires ValidateFields(f).Accept?
    ensures r.id == e.id && r.userEmail == e.userEmail
    ensures r.title == Trim(f.title) && r.amount == f.amount.value
    ensures r.category == f.category && r.kind == f.kind && r.date == f.date.value
  {
    e.(title := Trim(f.title), amount := f.amount.value, category := f.category,
       kind := f.kind, date := f.date.value)
  }

  /** An accepted add builds a document that is schema-valid exactly when its
      trimmed title is non-empty and its category and type are listed; only
      then does saving it succeed. */
  lemma DraftValidity(f: ExpenseFields, userEmail: string, id: Id)
    requires ValidateAdd(f, userEmail).Accept?
    ensures SchemaValid(Draft(f, userEmail, id)) <==>
      Trim(f.title) != "" && f.category in Categories && f.kind in Kinds
  {
    PositiveAmountMeetsSchema(Draft(f, userEmail, id));
  }

  /** An update passes the controller's checks without any enumeration test,
      so it can store a category the schema does not list. */
  lemma UpdateSkipsEnumerations(e: Expense, f: ExpenseFields)
    requires e == Expense(0, "Tea", 3.0, "Food", "Want", 10, "a@b.com")
    requires f == ExpenseFields("Tea", Some(3.0), "Gym", "Want", Some(10))
    ensures SchemaValid(e) && ValidateFields(f).Accept? && !SchemaValid(Revise(e, f))
  {
    assert SchemaValid(e) by {
      assert e.category == Categories[0];
      assert e.kind == Kinds[1];
    }
    assert Revise(e, f).category == "Gym";
    assert "Gym" !in Categories;
  }

  /** An update also skips the `required` check after trimming: a title of
      white space only is truthy, passes the controller's checks and is
      stored as the empty string. */
  lemma UpdateStoresBlankTitle(e: Expense, f: ExpenseFields)
    requires e == Expense(0, "Tea", 3.0, "Food", "Want", 10, "a@b.com")
    requires f == ExpenseFields("  ", Some(3.0), "Food", "Want", Some(10))
    ensures SchemaValid(e) && ValidateFields(f).Accept?
    ensures Revise(e, f).title == "" && !SchemaValid(Revise(e, f))
  {
    assert SchemaValid(e) by {
      assert e.category == Categories[0];
      assert e.kind == Kinds[1];
    }
    assert TrimStart("  ") == [] by {
      assert IsSpace(' ');
      assert "  "[1..] == " " && " "[1..] == "";
    }
  }

  /** Dates never increase along the list. */
  predicate NewestFirst(s: seq<Expense>) {
    forall i, j :: 0 <= i < j < |s| ==> s[i].date >= s[j].date
  }

  /** No identifier occurs twice. */
  predicate DistinctIds(s: seq<Expense>) {
    forall i, j :: 0 <= i < j < |s| ==> s[i].id != s[j].id
  }

  /** Where a document goes in a newest-first list: after every strictly
      newer one, before every other. */
  function InsertionPoint(x: Expense, s: seq<Expense>): (k: nat)
    requires NewestFirst(s)
    ensures k <= |s|
    ensures forall i :: 0 <= i < k ==> s[i].date > x.date
    ensures forall i :: k <= i < |s| ==> s[i].date <= x.date
  {
    if s == [] || s[0].date <= x.date then 0 else 1 + InsertionPoint(x, s[1..])
  }

  /** The list after inserting `x` at position `k`, element by element. */
  lemma InsertedAt(x: Expense, s: seq<Expense>, k: nat)
    requires k <= |s|
    ensures var r := s[..k] + [x] + s[k..];
            |r| == |s| + 1 && r[k] == x
            && (forall i :: 0 <= i < k ==> r[i] == s[i])
            && (forall i :: k < i < |r| ==> r[i] == s[i - 1])
  {
  }

  /** Inserting `x` anywhere adds `x` and keeps everything else. */
  lemma InsertedMembers(x: Expense, s: seq<Expense>, k: nat)
    requires k <= |s|
    ensures forall y :: y in s[..k] + [x] + s[k..] <==> y == x || y in s
  {
    assert s == s[..k] + s[k..];
  }

  /** Inserting a document with a new identifier anywhere keeps identifiers
      distinct. */
  lemma InsertKeepsDistinct(x: Expense, s: seq<Expense>, k: nat)
    requires k <= |s| && DistinctIds(s) && forall y :: y in s ==> y.id != x.id
    ensures DistinctIds(s[..k] + [x] + s[k..])
  {
    var r := s[..k] + [x] + s[k..];
    InsertedAt(x, s, k);
    forall i, j | 0 <= i < j < |r|
      ensures r[i].id != r[j].id
    {
      if j < k {
      } else if j == k {
        assert s[i] in s;
      } else if i == k {
        assert s[j - 1] in s;
      } else if i < k {
      } else {
        assert r[i] == s[i - 1] && r[j] == s[j - 1];
      }
    }
  }

  /** Inserting a document into a newest-first list keeps it newest first,
      and keeps identifiers distinct when the new one is not yet there. */
  lemma InsertKeepsOrder(x: Expense, s: seq<Expense>)
    requires NewestFirst(s)
    ensures var r := s[..InsertionPoint(x, s)] + [x] + s[InsertionPoint(x, s)..];
            NewestFirst(r) && (DistinctIds(s) && (forall y :: y in s ==> y.id != x.id) ==> DistinctIds(r))
  {
    var k := InsertionPoint(x, s);
    var r := s[..k] + [x] + s[k..];
    InsertedAt(x, s, k);
    forall i, j | 0 <= i < j < |r|
      ensures r[i].date >= r[j].date
    {
      if j < k {
      } else if j == k {
      } else if i < k {
      } else if i == k {
      } else {
        assert r[i] == s[i - 1] && r[j] == s[j - 1];
      }
    }
    if DistinctIds(s) && (forall y :: y in s ==> y.id != x.id) {
      InsertKeepsDistinct(x, s, k);
    }
  }

  class ExpenseStore {
    /** The collection, keyed by document identifier. */
    var records: map<Id, Expense>
    /** The identifier the next insertion receives. */
    var nextId: Id

    /** Each document sits under its own identifier, below the next fresh
        one; every handler keeps its amount positive, its owner non-empty
        and its title trimmed. */
    ghost predicate Valid()
      reads this
    {
      forall k :: k in records ==>
        && records[k].id == k && k < nextId
        && records[k].amount > 0.0 && records[k].userEmail != "" && Trimmed(records[k].title)
    }

    constructor ()
      ensures Valid() && records == map[] && nextId == 0
    {
      records := map[];
      nextId := 0;
    }

    /** GET /expenses?user=...: 400 when the user is missing; otherwise every
        document of that owner, each once, newest first. */
    method GetExpenses(user: string) returns (reply: Reply, list: seq<Expense>)
      requires Valid()
      ensures user == "" ==> reply == Reply(BadRequest, UserRequired) && list == []
      ensures user != "" ==> reply.status == Ok
      ensures reply.status.Code() == (if user == "" then 400 else 200)
      ensures forall e :: e in list <==> user != "" && e in records.Values && e.userEmail == user
      ensures NewestFirst(list) && DistinctIds(list)
    {
      if user == "" {
        return Reply(BadRequest, UserRequired), [];
      }
      list := [];
      var pending := records.Keys;
      while pending != {}
        invariant pending <= records.Keys
        invariant NewestFirst(list) && DistinctIds(list)
        invariant forall e :: e in list ==>
          e.id in records && records[e.id] == e && e.userEmail == user && e.id !in pending
        invariant forall k :: k in records && k !in pending && records[k].userEmail == user ==>
          records[k] in list
        decreases pending
      {
        var k :| k in pending;
        var e := records[k];
        if e.userEmail == user {
          InsertKeepsOrder(e, list);
          var at := InsertionPoint(e, list);
          InsertedMembers(e, list, at);
          list := list[..at] + [e] + list[at..];
        }
        pending := pending - {k};
      }
      reply := Reply(Ok, "");
    }

    /** POST /expenses: 400 on a missing field or a non-positive amount; 500
        when the schema rejects the document; otherwise 201 and exactly one
        new document under a fresh identifier. */
    method AddExpense(f: ExpenseFields, userEmail: string) returns (reply: Reply, created: Option<Expense>)
      requires Valid()
      modifies this
      ensures Valid()
      ensures ValidateAdd(f, userEmail).Reject? ==>
        && reply == Reply(BadRequest, ValidateAdd(f, userEmail).message) && created == None
        && records == old(records) && nextId == old(nextId)
      ensures ValidateAdd(f, userEmail).Accept? && !SchemaValid(Draft(f, userEmail, old(nextId))) ==>
        && reply == Reply(ServerError, AddFailed) && created == None
        && records == old(records) && nextId == old(nextId)
      ensures ValidateAdd(f, userEmail).Accept? && SchemaValid(Draft(f, userEmail, old(nextId))) ==>
        && reply == Reply(Created, ExpenseAdded)
        && created == Some(Draft(f, userEmail, old(nextId)))
        && old(nextId) !in old(records)
        && records == old(records)[old(nextId) := created.value]
        && nextId == old(nextId) + 1
      ensures created.Some? ==> ValidateAdd(f, userEmail).Accept?
      ensures created.Some? ==> SchemaValid(created.value) && created.value.amount > 0.0
    {
      var verdict := ValidateAdd(f, userEmail);
      if verdict.Reject? {
        return Reply(BadRequest, verdict.message), None;
      }
      var e := Draft(f, userEmail, nextId);
      if !SchemaValid(e) {
        return Reply(ServerError, AddFailed), None;
      }
      assert e.id == nextId && e.amount > 0.0 && e.userEmail != "" && Trimmed(e.title);
      assert nextId !in records;
      records := records[nextId := e];
      nextId := nextId + 1;
      reply, created := Reply(Created, ExpenseAdded), Some(e);
    }

    /** PUT /expenses/:id: 400 on a missing field or a non-positive amount,
        404 on an unknown identifier; otherwise the five fields of that one
        document are overwritten and nothing else changes. */
    method UpdateExpense(id: Id, f: ExpenseFields) returns (reply: Reply, updated: Option<Expense>)
      requires Valid()
      modifies this
      ensures Valid() && nextId == old(nextId)
      ensures ValidateFields(f).Reject? ==>
        reply == Reply(BadRequest, ValidateFields(f).message) && updated == None && records == old(records)
      ensures ValidateFields(f).Accept? && id !in old(records) ==>
        reply == Reply(NotFound, ExpenseNotFound) && updated == None && records == old(records)
      ensures ValidateFields(f).Accept? && id in old(records) ==>
        && reply == Reply(Ok, ExpenseUpdated)
        && updated == Some(Revise(old(records)[id], f))
        && records == old(records)[id := updated.value]
    {
      var verdict := ValidateFields(f);
      if verdict.Reject? {
        return Reply(BadRequest, verdict.message), None;
      }
      if id !in records {
        return Reply(NotFound, ExpenseNotFound), None;
      }
      var e := Revise(records[id], f);
      assert e.id == id && e.amount > 0.0 && e.userEmail != "" && Trimmed(e.title);
      records := records[id := e];
      reply, updated := Reply(Ok, ExpenseUpdated), Some(e);
    }

    /** DELETE /expenses/:id: removes exactly that document, or answers 404. */
    method DeleteExpense(id: Id) returns (reply: Reply)
      requires Valid()
      modifies this
      ensures Valid() && nextId == old(nextId) && id !in records
      ensures id in old(records) ==> reply == Reply(Ok, ExpenseDeleted) && records == old(records) - {id}
      ensures id !in old(records) ==> reply == Reply(NotFound, ExpenseNotFound) && records == old(records)
      ensures reply.status.Code() == (if id in old(records) then 200 else 404)
    {
      if id !in records {
        return Reply(NotFound, ExpenseNotFound);
      }
      records := records - {id};
      reply := Reply(Ok, ExpenseDeleted);
    }
  }

  /** Deleting the same identifier twice: the second answer is always 404. */
  method DeleteTwice(store: ExpenseStore, id: Id) returns (first: Reply, second: Reply)
    requires store.Valid()
    modifies store
    ensures store.Valid() && store.records == old(store.records) - {id}
    ensures first.status == Ok <==> id in old(store.records)
    ensures second == Reply(NotFound, ExpenseNotFound)
  {
    first := store.DeleteExpense(id);
    second := store.DeleteExpense(id);
  }

  /** A successful add followed by a listing for the same owner: the new
      document is listed exactly once, with its amount as given. */
  method AddThenList(store: ExpenseStore, f: ExpenseFields, userEmail: string)
    returns (added: Reply, created: Option<Expense>, listed: Reply, list: seq<Expense>)
    requires store.Valid()
    modifies store
    ensures created.Some? ==>
      && created.value.id !in old(store.records)
      && f.amount.Some? && created.value.amount == f.amount.value
      && listed.status == Ok
      && (exists i :: 0 <= i < |list| && list[i] == created.value)
      && (forall i, j :: 0 <= i < j < |list| ==> list[i] != created.value || list[j] != created.value)
  {
    added, created := store.AddExpense(f, userEmail);
    listed, list := store.GetExpenses(userEmail);
    if created.Some? {
      assert store.records[created.value.id] == created.value;
      assert created.value in store.records.Values;
    }
  }
}
