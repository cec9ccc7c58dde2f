/**
 * The dashboard component's state: the fetched list, the filtered list, the
 * four filter fields, the add/edit form and whether it is shown. Each event
 * handler is a method that changes only the fields it sets. The effect that
 * re-runs the filter whenever the list or the filters change is folded into
 * the methods that change them, so the filtered list is always up to date
 * between user actions.
 */
module DashboardPage {
  import opened Wrappers
  import opened Filtering
  import Summary

  /** The filter field a change event names. */
  datatype FilterKey = CategoryKey | TypeKey | DateFromKey | DateToKey

  function FilterValue(f: Filters, key: FilterKey): string {
    match key
    case CategoryKey => f.category
    case TypeKey => f.kind
    case DateFromKey => f.dateFrom
    case DateToKey => f.dateTo
  }

  /** The add/edit form: every input holds text. */
  datatype FormData = FormData(title: string, amount: string, category: string, kind: string, date: string)

  const EmptyForm := FormData("", "", "", "", "")

  /** The form input a change event names. */
  datatype FormField = TitleField | AmountField | CategoryField | TypeField | DateField

  function FormValue(d: FormData, field: FormField): string {
    match field
    case TitleField => d.title
    case AmountField => d.amount
    case CategoryField => d.category
    case TypeField => d.kind
    case DateField => d.date
  }

  /** `s.split('T')[0]`: the text before the first 'T', or all of it when
      there is none. */
  function BeforeT(s: string): (r: string)
    ensures |r| <= |s| && r == s[..|r|]
    ensures 'T' !in r
    ensures |r| < |s| ==> s[|r|] == 'T'
  {
    if s == [] || s[0] == 'T' then [] else [s[0]] + BeforeT(s[1..])
  }

  /** An ISO-8601 timestamp loses its time of day. */
  lemma BeforeTOfTimestamp(day: string, time: string)
    requires 'T' !in day
    ensures BeforeT(day + "T" + time) == day
  {
    var s := day + "T" + time;
    assert s[..|day|] == day;
    assert s[|day|] == 'T';
    assert forall i :: 0 <= i < |day| ==> s[i] == day[i];
  }

  class Dashboard {
    /** `new Date(text)`: the position in time of a date text. */
    const dateKey: string -> int
    /** `amount.toString()`. */
    const formatAmount: real -> string

    var expenses: seq<Entry>
    var filteredExpenses: seq<Entry>
    var showAddForm: bool
    var editingExpense: Option<Entry>
    var filters: Filters
    var formData: FormData

    /** The filtered list is what `applyFilters` makes of the list and the filters. */
    ghost predicate Settled()
      reads this
    {
      filteredExpenses == Filtering.ApplyFilters(expenses, filters, dateKey)
    }

    /** `calculateSummary` over the filtered list, which the summary cards
        show: once settled, the summary of what the filters let through. */
    function CalculateSummary(): (r: Summary.Summary)
      reads this
      ensures r.total == Summary.Total(filteredExpenses)
      ensures Settled() ==> r == Summary.Summarize(Filtering.ApplyFilters(expenses, filters, dateKey))
    {
      Summary.Summarize(filteredExpenses)
    }

    /** The state the component starts with. */
    constructor (dateKey: string -> int, formatAmount: real -> string)
      ensures this.dateKey == dateKey && this.formatAmount == formatAmount
      ensures expenses == [] && filteredExpenses == []
      ensures !showAddForm && editingExpense == None
      ensures filters == NoFilters && formData == EmptyForm
      ensures Settled()
    {
      this.dateKey := dateKey;
      this.formatAmount := formatAmount;
      expenses := [];
      filteredExpenses := [];
      showAddForm := false;
      editingExpense := None;
      filters := NoFilters;
      formData := EmptyForm;
    }

    /** `applyFilters`: recompute the filtered list. */
    method ApplyFilters()
      modifies this`filteredExpenses
      ensures filteredExpenses == Filtering.ApplyFilters(expenses, filters, dateKey)
      ensures Settled()
    {
      var f, key := filters, dateKey;
      var filtered := expenses;
      if f.category != "" {
        filtered := Keep(filtered, StageTest(CategoryStage, f, key));
      }
      if f.kind != "" {
        filtered := Keep(filtered, StageTest(KindStage, f, key));
      }
      if f.dateFrom != "" {
        filtered := Keep(filtered, StageTest(FromStage, f, key));
      }
      if f.dateTo != "" {
        filtered := Keep(filtered, StageTest(ToStage, f, key));
      }
      filteredExpenses := filtered;
    }

    /** A successful fetch replaces the list; the filter effect follows. */
    method ReceiveExpenses(list: seq<Entry>)
      modifies this`expenses, this`filteredExpenses
      ensures expenses == list && Settled()
    {
      expenses := list;
      ApplyFilters();
    }

    /** `handleFilterChange(key, value)`: that one field takes the value, the
        other three keep theirs; the filter effect follows. */
    method HandleFilterChange(key: FilterKey, value: string)
      modifies this`filters, this`filteredExpenses
      ensures FilterValue(filters, key) == value
      ensures forall k :: k != key ==> FilterValue(filters, k) == FilterValue(old(filters), k)
      ensures Settled()
    {
      match key {
        case CategoryKey => filters := filters.(category := value);
        case TypeKey => filters := filters.(kind := value);
        case DateFromKey => filters := filters.(dateFrom := value);
        case DateToKey => filters := filters.(dateTo := value);
      }
      ApplyFilters();
    }

    /** `clearFilters`: all four fields empty, so the whole list is shown. */
    method ClearFilters()
      modifies this`filters, this`filteredExpenses
      ensures filters == NoFilters
      ensures forall k :: FilterValue(filters, k) == ""
      ensures filteredExpenses == expenses
      ensures Settled()
    {
      filters := NoFilters;
      ApplyFilters();
      NoFiltersShowAll(expenses, dateKey);
    }

    /** `handleFormChange`: that one input takes the value. */
    method HandleFormChange(field: FormField, value: string)
      modifies this`formData
      ensures FormValue(formData, field) == value
      ensures forall g :: g != field ==> FormValue(formData, g) == FormValue(old(formData), g)
    {
      match field
      case TitleField => formData := formData.(title := value);
      case AmountField => formData := formData.(amount := value);
      case CategoryField => formData := formData.(category := value);
      case TypeField => formData := formData.(kind := value);
      case DateField => formData := formData.(date := value);
    }

    /** `handleEdit(expense)`: the form shows that expense for editing. */
    method HandleEdit(expense: Entry)
      modifies this`editingExpense, this`formData, this`showAddForm
      ensures editingExpense == Some(expense) && showAddForm
      ensures formData.title == expense.title && formData.category == expense.category
      ensures formData.kind == expense.kind && formData.amount == formatAmount(expense.amount)
      ensures formData.date == BeforeT(expense.date)
    {
      editingExpense := Some(expense);
      formData := FormData(expense.title, formatAmount(expense.amount), expense.category,
                           expense.kind, BeforeT(expense.date));
      showAddForm := true;
    }

    /** `resetForm`: an empty, hidden form that edits nothing. */
    method ResetForm()
      modifies this`formData, this`showAddForm, this`editingExpense
      ensures forall g :: FormValue(formData, g) == ""
      ensures !showAddForm && editingExpense == None
    {
      formData := EmptyForm;
      showAddForm := false;
      editingExpense := None;
    }
  }

  /** Clearing the filters twice leaves the state clearing once leaves. */
  method ClearTwice(d: Dashboard)
    modifies d`filters, d`filteredExpenses
    ensures d.filters == NoFilters && d.filteredExpenses == d.expenses
    ensures d.expenses == old(d.expenses) && d.formData == old(d.formData)
    ensures d.showAddForm == old(d.showAddForm) && d.editingExpense == old(d.editingExpense)
  {
    d.ClearFilters();
    d.ClearFilters();
  }
}
