/**
 * The expenses page (src/pages/Expenses.tsx): the search and group filters
 * over the fetched expenses, the empty state, and the state updates of the
 * joined fetch, the add-expense form and the `?group=` query parameter.
 */
module ExpensesPage {
  import opened Wrappers
  import opened Text
  import opened Lists
  import opened Storage
  import opened Entities
  import opened Gateway

  /** A JavaScript primitive as far as `===` is concerned: a number never equals a string. */
  datatype JsValue = Num(n: int) | Str(s: string)

  /** `typeof g === 'object' ? g.id : g`: the key of an expense's group is always a number. */
  function GroupKey(g: GroupRef): (k: JsValue)
    ensures k.Num?
    ensures g.Full? ==> k.n == g.group.id
    ensures g.Ref? ==> k.n == g.id
  {
    match g
    case Full(group) => Num(group.id)
    case Ref(id) => Num(id)
  }

  /**
   * The value a `<select>` holds after the user picks the option of a key:
   * the DOM turns a numeric option value into its decimal text.
   */
  function OptionValue(k: JsValue): (v: string)
    ensures k.Num? ==> v == Decimal(k.n)
    ensures k.Str? ==> v == k.s
  {
    match k
    case Num(n) => Decimal(n)
    case Str(s) => s
  }

  // ---------------------------------------------------------------------------
  // The filter as written: the selection (a string) is compared with `===`
  // against the numeric group key.

  predicate KeepsAsWritten(e: Expense, search: string, selected: string) {
    MatchesIgnoringCase(e.description, search) && (selected == "" || GroupKey(e.group) == Str(selected))
  }

  function FilteredAsWritten(expenses: seq<Expense>, search: string, selected: string): (r: seq<Expense>)
    ensures IsSubsequence(r, expenses)
    ensures forall e :: e in r <==> e in expenses && KeepsAsWritten(e, search, selected)
    ensures forall e :: multiset(r)[e] == if KeepsAsWritten(e, search, selected) then multiset(expenses)[e] else 0
  {
    Filter(expenses, e => KeepsAsWritten(e, search, selected))
  }

  /** Once any group is selected, the list as written is empty, whatever the expenses. */
  lemma SelectionHidesEverything(expenses: seq<Expense>, search: string, selected: string)
    requires selected != ""
    ensures FilteredAsWritten(expenses, search, selected) == []
  {
  }

  function SelectedGroupAsWritten(groups: seq<Group>, selected: string): (r: Option<Group>)
    ensures r.Some? ==> r.value in groups
  {
    Find(groups, (g: Group) => Num(g.id) == Str(selected))
  }

  /** As written, `selectedGroupData` is never found, so the summary always reads "Across all groups". */
  lemma SelectedGroupNeverFound(groups: seq<Group>, selected: string)
    ensures SelectedGroupAsWritten(groups, selected) == None
  {
  }

  // ---------------------------------------------------------------------------
  // The filter as evidently intended: the selection is compared with the
  // option value of the group key.

  predicate Keeps(e: Expense, search: string, selected: string) {
    MatchesIgnoringCase(e.description, search) && (selected == "" || OptionValue(GroupKey(e.group)) == selected)
  }

  /** `filteredExpenses`: an order-preserving sub-list keeping exactly the matching expenses. */
  function FilteredExpenses(expenses: seq<Expense>, search: string, selected: string): (r: seq<Expense>)
    ensures IsSubsequence(r, expenses)
    ensures forall e :: e in r <==> e in expenses && Keeps(e, search, selected)
    ensures forall e :: multiset(r)[e] == if Keeps(e, search, selected) then multiset(expenses)[e] else 0
  {
    Filter(expenses, e => Keeps(e, search, selected))
  }

  /** The id of an expense's group, embedded or bare. */
  function GroupIdOf(e: Expense): int {
    GroupKey(e.group).n
  }

  /** Picking the option of group `id` keeps exactly the matching expenses of that group. */
  lemma SelectingGroupFilters(expenses: seq<Expense>, search: string, id: int)
    ensures forall e :: e in FilteredExpenses(expenses, search, Decimal(id)) <==>
              e in expenses && MatchesIgnoringCase(e.description, search) && GroupIdOf(e) == id
  {
    forall e | e in expenses
      ensures Keeps(e, search, Decimal(id)) <==> MatchesIgnoringCase(e.description, search) && GroupIdOf(e) == id
    {
      DecimalInjective(GroupIdOf(e), id);
    }
  }

  /** An empty search and no selection keep every expense, in order. */
  lemma NoFilterKeepsAll(expenses: seq<Expense>)
    ensures FilteredExpenses(expenses, "", "") == expenses
    ensures FilteredAsWritten(expenses, "", "") == expenses
  {
    forall i | 0 <= i < |expenses|
      ensures Keeps(expenses[i], "", "") && KeepsAsWritten(expenses[i], "", "")
    {
      IncludesEmpty(Lower(expenses[i].description));
    }
    FilterKeepsAll(expenses, e => Keeps(e, "", ""));
    FilterKeepsAll(expenses, e => KeepsAsWritten(e, "", ""));
  }

  /** `selectedGroupData`: the first group whose option value is the selection. */
  function SelectedGroupData(groups: seq<Group>, selected: string): (r: Option<Group>)
    ensures r.Some? ==> r.value in groups && Decimal(r.value.id) == selected
    ensures r.None? <==> forall i :: 0 <= i < |groups| ==> Decimal(groups[i].id) != selected
    ensures r.Some? ==> exists i :: 0 <= i < |groups| && groups[i] == r.value &&
                          forall j :: 0 <= j < i ==> groups[j].id != r.value.id
  {
    Find(groups, (g: Group) => Decimal(g.id) == selected)
  }

  /** Picking the option of a listed group finds a group with that id. */
  lemma SelectingGroupFindsIt(groups: seq<Group>, i: int)
    requires 0 <= i < |groups|
    ensures SelectedGroupData(groups, Decimal(groups[i].id)).Some?
    ensures SelectedGroupData(groups, Decimal(groups[i].id)).value.id == groups[i].id
  {
    var r := SelectedGroupData(groups, Decimal(groups[i].id));
    DecimalInjective(r.value.id, groups[i].id);
  }

  // ---------------------------------------------------------------------------
  // What the list area shows

  datatype EmptyState = EmptyState(heading: string, hint: string, offersAdd: bool)

  /** The card shown when no expense passes the filters. */
  function EmptyStateFor(search: string, selected: string): (r: EmptyState)
    ensures r.offersAdd <==> search == "" && selected == ""
    ensures r.heading == "No expenses found" <==> !r.offersAdd
    ensures r.heading == "No expenses yet" <==> r.offersAdd
  {
    if search != "" || selected != "" then
      EmptyState("No expenses found", "Try adjusting your filters", false)
    else
      EmptyState("No expenses yet", "Add your first expense to start tracking", true)
  }

  datatype Listing = Rows(items: seq<Expense>) | Empty(state: EmptyState)

  /** The list area with the corrected filter. */
  function ListingFor(expenses: seq<Expense>, search: string, selected: string): (r: Listing)
    ensures r.Rows? <==> FilteredExpenses(expenses, search, selected) != []
    ensures r.Rows? ==> r.items == FilteredExpenses(expenses, search, selected)
    ensures r.Empty? ==> r.state == EmptyStateFor(search, selected)
  {
    var shown := FilteredExpenses(expenses, search, selected);
    if shown == [] then Empty(EmptyStateFor(search, selected)) else Rows(shown)
  }

  /** What the list area shows as written, with the `===` filter. */
  function ListingAsWritten(expenses: seq<Expense>, search: string, selected: string): (r: Listing)
    ensures r.Rows? <==> FilteredAsWritten(expenses, search, selected) != []
    ensures r.Rows? ==> r.items == FilteredAsWritten(expenses, search, selected)
    ensures r.Empty? ==> r.state == EmptyStateFor(search, selected)
  {
    var shown := FilteredAsWritten(expenses, search, selected);
    if shown == [] then Empty(EmptyStateFor(search, selected)) else Rows(shown)
  }

  /** As written, any selection shows "No expenses found", whatever the expenses. */
  lemma SelectionShowsNotFound(expenses: seq<Expense>, search: string, selected: string)
    requires selected != ""
    ensures ListingAsWritten(expenses, search, selected).Empty?
    ensures ListingAsWritten(expenses, search, selected).state.heading == "No expenses found"
  {
    SelectionHidesEverything(expenses, search, selected);
  }

  /** Without filters, the empty state (with its add button) appears only when there are no expenses. */
  lemma EmptyWithoutFilters(expenses: seq<Expense>)
    ensures ListingFor(expenses, "", "").Empty? <==> expenses == []
    ensures ListingFor(expenses, "", "").Empty? ==> ListingFor(expenses, "", "").state.offersAdd
  {
  }

  // ---------------------------------------------------------------------------
  // Page state

  datatype ExpenseForm = ExpenseForm(description: string, amount: string, groupId: string, splitBetween: seq<string>)

  const EmptyForm := ExpenseForm("", "", "", [])

  /**
   * The body `handleAddExpense` sends; `amount` is what `parseFloat` makes of
   * the amount field, and `group_id` stays the string the form holds.
   */
  function CreateBody(form: ExpenseForm, amount: real): (body: Json)
    ensures body.JObject? && body.fields.Keys == {"description", "amount", "group_id", "split_between"}
    ensures body.fields["description"] == JString(form.description)
    ensures body.fields["amount"] == JNumber(amount)
    ensures body.fields["group_id"] == JString(form.groupId)
    ensures body.fields["split_between"].JArray? && |body.fields["split_between"].items| == |form.splitBetween|
    ensures forall i :: 0 <= i < |form.splitBetween| ==>
              body.fields["split_between"].items[i] == JString(form.splitBetween[i])
  {
    JObject(map[
      "description" := JString(form.description),
      "amount" := JNumber(amount),
      "group_id" := JString(form.groupId),
      "split_between" := JArray(Map(form.splitBetween, (s: string) => JString(s)))])
  }

  datatype Screen = Screen(
    expenses: seq<Expense>,
    groups: seq<Group>,
    loading: bool,
    searchTerm: string,
    selectedGroup: string,
    showAddModal: bool,
    form: ExpenseForm,
    addLoading: bool)

  const Initial := Screen([], [], true, "", "", false, EmptyForm, false)

  /** `fetchData` once the joined calls have settled. */
  function AfterFetch(s: Screen, reply: Reply<(seq<Expense>, seq<Group>)>): (r: Screen)
    ensures !r.loading
    ensures reply.Ok? ==> r.expenses == reply.data.0 && r.groups == reply.data.1
    ensures reply.Failed? ==> r.expenses == s.expenses && r.groups == s.groups
    ensures r.(expenses := s.expenses, groups := s.groups, loading := s.loading) == s
  {
    match reply
    case Ok((xs, gs)) => s.(expenses := xs, groups := gs, loading := false)
    case Failed(_) => s.(loading := false)
  }

  /** `handleAddExpense` once the create call has settled (the refetch is a separate `fetchData`). */
  function AfterAdd(s: Screen, reply: Reply<Expense>): (r: Screen)
    ensures !r.addLoading
    ensures reply.Ok? ==> r.form == EmptyForm && !r.showAddModal
    ensures reply.Failed? ==> r.form == s.form && r.showAddModal == s.showAddModal
    ensures r.(form := s.form, showAddModal := s.showAddModal, addLoading := s.addLoading) == s
  {
    if reply.Ok? then s.(form := EmptyForm, showAddModal := false, addLoading := false)
    else s.(addLoading := false)
  }

  /** The mount effect's use of `?group=`: a non-empty value preselects the filter and the form's group. */
  function WithUrlGroup(s: Screen, groupFromUrl: Option<string>): (r: Screen)
    ensures Truthy(groupFromUrl) ==> r.selectedGroup == groupFromUrl.value && r.form == s.form.(groupId := groupFromUrl.value)
    ensures !Truthy(groupFromUrl) ==> r == s
    ensures r.(selectedGroup := s.selectedGroup, form := s.form) == s
  {
    if Truthy(groupFromUrl) then s.(selectedGroup := groupFromUrl.value, form := s.form.(groupId := groupFromUrl.value))
    else s
  }

  /** As written, arriving through a `?group=<id>` link lists nothing. */
  lemma UrlGroupListsNothingAsWritten(s: Screen, id: int)
    ensures var r := WithUrlGroup(s, Some(Decimal(id)));
            FilteredAsWritten(r.expenses, r.searchTerm, r.selectedGroup) == [] &&
            ListingAsWritten(r.expenses, r.searchTerm, r.selectedGroup).Empty?
  {
    SelectionShowsNotFound(s.expenses, s.searchTerm, Decimal(id));
  }

  /** With the corrected filter, a group preselected from the URL is the group whose link was followed. */
  lemma UrlGroupSelectsThatGroup(s: Screen, id: int)
    ensures var r := WithUrlGroup(s, Some(Decimal(id)));
            forall e :: e in FilteredExpenses(r.expenses, r.searchTerm, r.selectedGroup) <==>
              e in s.expenses && MatchesIgnoringCase(e.description, s.searchTerm) && GroupIdOf(e) == id
  {
    SelectingGroupFilters(s.expenses, s.searchTerm, id);
  }

  class ExpensesView {
    var expenses: seq<Expense>
    var groups: seq<Group>
    var loading: bool
    var searchTerm: string
    var selectedGroup: string
    var showAddModal: bool
    var form: ExpenseForm
    var addLoading: bool

    constructor ()
      ensures Current() == Initial
    {
      expenses := [];
      groups := [];
      loading := true;
      searchTerm := "";
      selectedGroup := "";
      showAddModal := false;
      form := EmptyForm;
      addLoading := false;
    }

    function Current(): Screen
      reads this
    {
      Screen(expenses, groups, loading, searchTerm, selectedGroup, showAddModal, form, addLoading)
    }

    method FetchData(expensesReply: Reply<seq<Expense>>, groupsReply: Reply<seq<Group>>)
      returns (requests: seq<Request>)
      modifies this
      ensures requests == [Route(GetExpenses(None)), Route(GetGroups)]
      ensures Current() == AfterFetch(old(Current()), JoinReplies(expensesReply, groupsReply))
    {
      requests := [Route(GetExpenses(None)), Route(GetGroups)];
      var joined := JoinReplies(expensesReply, groupsReply);
      if joined.Ok? {
        expenses := joined.data.0;
        groups := joined.data.1;
      }
      loading := false;
    }

    method HandleAddExpense(amount: real, reply: Reply<Expense>) returns (request: Request, refetch: bool)
      modifies this
      ensures request == Route(CreateExpense(CreateBody(old(form), amount)))
      ensures refetch <==> reply.Ok?
      ensures Current() == AfterAdd(old(Current()), reply)
    {
      addLoading := true;
      request := Route(CreateExpense(CreateBody(form, amount)));
      refetch := false;
      if reply.Ok? {
        form := EmptyForm;
        showAddModal := false;
        refetch := true;
      }
      addLoading := false;
    }

    method ApplyUrlGroup(groupFromUrl: Option<string>)
      modifies this
      ensures Current() == WithUrlGroup(old(Current()), groupFromUrl)
    {
      if Truthy(groupFromUrl) {
        selectedGroup := groupFromUrl.value;
        form := form.(groupId := groupFromUrl.value);
      }
    }
  }
}
