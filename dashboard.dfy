/**
 * The dashboard (src/pages/Dashboard.tsx): the counts and the two short
 * lists derived from the joined fetch of groups and expenses, and the
 * load effect that runs only when someone is signed in.
 */
module DashboardPage {
  import opened Wrappers
  import opened Text
  import opened Lists
  import opened Entities
  import opened Gateway
  import GroupsPage

  /** The two counts the dashboard derives; the month total and the balances are not modelled. */
  datatype Stats = Stats(totalGroups: nat, totalExpenses: nat)

  const NoStats := Stats(0, 0)

  datatype RecentGroup = RecentGroup(id: int, name: string, description: Option<string>, memberCount: nat)

  datatype RecentExpense = RecentExpense(id: int, description: string, amount: real, groupName: string, createdAt: string)

  /** How many entries each short list shows. */
  const RecentLimit := 5

  function SummarizeGroup(g: Group): (r: RecentGroup)
    ensures r.id == g.id && r.name == g.name && r.description == g.description
    ensures r.memberCount == GroupsPage.MemberCount(g)
  {
    RecentGroup(g.id, g.name, g.description, GroupsPage.MemberCount(g))
  }

  /** `expense.group?.name || 'Unknown'`: a bare id has no name. */
  function GroupName(group: GroupRef): (r: string)
    ensures r != ""
    ensures group.Full? && group.group.name != "" ==> r == group.group.name
    ensures group.Ref? || group.group.name == "" ==> r == "Unknown"
  {
    match group
    case Full(g) => OrElse(g.name, "Unknown")
    case Ref(_) => "Unknown"
  }

  function SummarizeExpense(e: Expense): (r: RecentExpense)
    ensures r.id == e.id && r.description == e.description && r.amount == e.amount && r.createdAt == e.createdAt
    ensures r.groupName == GroupName(e.group)
  {
    RecentExpense(e.id, e.description, e.amount, GroupName(e.group), e.createdAt)
  }

  /** `groups.slice(0, 5).map(...)`: the first groups in the order received. */
  function RecentGroups(groups: seq<Group>): (r: seq<RecentGroup>)
    ensures |r| == if |groups| < RecentLimit then |groups| else RecentLimit
    ensures forall i :: 0 <= i < |r| ==> r[i] == SummarizeGroup(groups[i])
  {
    Map(Take(groups, RecentLimit), SummarizeGroup)
  }

  /** `expenses.slice(0, 5).map(...)`: the first expenses in the order received. */
  function RecentExpenses(expenses: seq<Expense>): (r: seq<RecentExpense>)
    ensures |r| == if |expenses| < RecentLimit then |expenses| else RecentLimit
    ensures forall i :: 0 <= i < |r| ==> r[i] == SummarizeExpense(expenses[i])
  {
    Map(Take(expenses, RecentLimit), SummarizeExpense)
  }

  datatype Screen = Screen(stats: Stats, recentGroups: seq<RecentGroup>, recentExpenses: seq<RecentExpense>, loading: bool)

  const Initial := Screen(NoStats, [], [], true)

  /** The load effect: no fetch without a user; otherwise the joined fetch once it has settled. */
  function AfterLoad(s: Screen, signedIn: bool, reply: Reply<(seq<Group>, seq<Expense>)>): (r: Screen)
    ensures !r.loading
    ensures !signedIn || reply.Failed? ==> r == s.(loading := false)
    ensures signedIn && reply.Ok? ==>
              r.stats == Stats(|reply.data.0|, |reply.data.1|) &&
              r.recentGroups == RecentGroups(reply.data.0) &&
              r.recentExpenses == RecentExpenses(reply.data.1)
  {
    if signedIn && reply.Ok? then
      var (groups, expenses) := reply.data;
      Screen(Stats(|groups|, |expenses|), RecentGroups(groups), RecentExpenses(expenses), false)
    else s.(loading := false)
  }

  /** A failed fetch leaves the dashboard at zero with both lists empty. */
  lemma FailureShowsNothing(reply: Reply<(seq<Group>, seq<Expense>)>, signedIn: bool)
    requires reply.Failed? || !signedIn
    ensures AfterLoad(Initial, signedIn, reply) == Screen(NoStats, [], [], false)
  {
  }

  /** The short lists never outnumber the counts, and match them when there are at most five of each. */
  lemma RecentWithinTotals(s: Screen, groups: seq<Group>, expenses: seq<Expense>)
    ensures var r := AfterLoad(s, true, Ok((groups, expenses)));
            |r.recentGroups| <= r.stats.totalGroups && |r.recentExpenses| <= r.stats.totalExpenses &&
            (r.stats.totalGroups <= RecentLimit ==> |r.recentGroups| == r.stats.totalGroups) &&
            (r.stats.totalExpenses <= RecentLimit ==> |r.recentExpenses| == r.stats.totalExpenses)
  {
  }

  /** Each recent group is the group at the same position, with its member count. */
  lemma RecentGroupsInOrder(groups: seq<Group>, i: int)
    requires 0 <= i < |groups| && i < RecentLimit
    ensures RecentGroups(groups)[i].id == groups[i].id
    ensures RecentGroups(groups)[i].memberCount == (if groups[i].members.Some? then |groups[i].members.value| else 0)
  {
  }

  class DashboardView {
    var stats: Stats
    var recentGroups: seq<RecentGroup>
    var recentExpenses: seq<RecentExpense>
    var loading: bool

    constructor ()
      ensures Current() == Initial
    {
      stats := NoStats;
      recentGroups := [];
      recentExpenses := [];
      loading := true;
    }

    function Current(): Screen
      reads this
    {
      Screen(stats, recentGroups, recentExpenses, loading)
    }

    /** The load effect for the current `user`; the calls are made only when there is one. */
    method Load(user: Option<User>, groupsReply: Reply<seq<Group>>, expensesReply: Reply<seq<Expense>>)
      returns (requests: seq<Request>)
      modifies this
      ensures requests == if user.Some? then [Route(GetGroups), Route(GetExpenses(None))] else []
      ensures Current() == AfterLoad(old(Current()), user.Some?, JoinReplies(groupsReply, expensesReply))
    {
      if user.None? {
        requests := [];
        loading := false;
        return;
      }
      requests := [Route(GetGroups), Route(GetExpenses(None))];
      var joined := JoinReplies(groupsReply, expensesReply);
      if joined.Ok? {
        var groups := joined.data.0;
        var expenses := joined.data.1;
        stats := Stats(|groups|, |expenses|);
        recentGroups := RecentGroups(groups);
        recentExpenses := RecentExpenses(expenses);
      }
      loading := false;
    }
  }
}
