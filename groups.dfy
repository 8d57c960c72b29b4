/**
 * The groups page (src/pages/Groups.tsx): the search over groups, the
 * member summary of each group card, and the state updates of the fetch,
 * the create-group form and the invite dialog.
 */
module GroupsPage {
  import opened Wrappers
  import opened Text
  import opened Lists
  import opened Entities
  import opened Gateway

  // ---------------------------------------------------------------------------
  // Search

  /** A group matches on its name, or on a present, non-empty description. */
  predicate GroupMatches(g: Group, search: string) {
    MatchesIgnoringCase(g.name, search) ||
    (g.description.Some? && g.description.value != "" && MatchesIgnoringCase(g.description.value, search))
  }

  /** `filteredGroups`: an order-preserving sub-list keeping exactly the matching groups. */
  function FilteredGroups(groups: seq<Group>, search: string): (r: seq<Group>)
    ensures IsSubsequence(r, groups)
    ensures forall g :: g in r <==> g in groups && GroupMatches(g, search)
    ensures forall g :: multiset(r)[g] == if GroupMatches(g, search) then multiset(groups)[g] else 0
  {
    Filter(groups, g => GroupMatches(g, search))
  }

  /** An empty search term keeps every group, in order. */
  lemma EmptySearchKeepsAll(groups: seq<Group>)
    ensures FilteredGroups(groups, "") == groups
  {
    forall i | 0 <= i < |groups|
      ensures GroupMatches(groups[i], "")
    {
      IncludesEmpty(Lower(groups[i].name));
    }
    FilterKeepsAll(groups, g => GroupMatches(g, ""));
  }

  /** Typing more of the search term never brings a group back. */
  lemma LongerSearchNarrows(groups: seq<Group>, t: string, u: string)
    ensures forall g :: g in FilteredGroups(groups, t + u) ==> g in FilteredGroups(groups, t)
  {
    forall g | g in groups && GroupMatches(g, t + u)
      ensures GroupMatches(g, t)
    {
      if MatchesIgnoringCase(g.name, t + u) {
        MatchesNarrow(g.name, t, u);
      } else {
        MatchesNarrow(g.description.value, t, u);
      }
    }
  }

  // ---------------------------------------------------------------------------
  // Member summary of a group card

  /** `group.members?.length || 0`. */
  function MemberCount(g: Group): (n: nat)
    ensures g.members.None? ==> n == 0
    ensures g.members.Some? ==> n == |g.members.value|
  {
    if g.members.Some? then |g.members.value| else 0
  }

  /** The "<n> member(s)" line: plural unless the count is exactly one. */
  function MemberLabel(g: Group): (r: string)
    ensures |Decimal(MemberCount(g))| < |r| && r[..|Decimal(MemberCount(g))|] == Decimal(MemberCount(g))
    ensures r[|r| - 1] == 's' <==> MemberCount(g) != 1
    ensures r[|Decimal(MemberCount(g))|..] == if MemberCount(g) == 1 then " member" else " members"
  {
    var n := MemberCount(g);
    Decimal(n) + " member" + (if n != 1 then "s" else "")
  }

  /**
   * The avatar row: the first members with avatars, or the "No members" note
   * (`shown` is `None`) when the list is absent, and a "+k" badge when there are
   * more than four. An empty but present list shows neither avatars nor the note.
   */
  datatype AvatarRow = AvatarRow(shown: Option<seq<GroupMember>>, overflow: Option<nat>)

  const AvatarLimit := 4

  function AvatarsFor(g: Group): (r: AvatarRow)
    ensures r.shown.None? <==> g.members.None?
    ensures r.shown.Some? ==> |r.shown.value| <= AvatarLimit && |r.shown.value| <= MemberCount(g)
    ensures r.shown.Some? ==> r.shown.value == g.members.value[..|r.shown.value|]
    ensures r.overflow.Some? <==> MemberCount(g) > AvatarLimit
    ensures r.overflow.Some? ==> r.overflow.value == MemberCount(g) - AvatarLimit
  {
    var n := MemberCount(g);
    var shown := if g.members.Some? then Some(Take(g.members.value, AvatarLimit)) else None;
    AvatarRow(shown, if n > AvatarLimit then Some(n - AvatarLimit) else None)
  }

  /** Avatars plus the badge account for every member, each exactly once. */
  lemma AvatarsCoverMembers(g: Group)
    requires g.members.Some?
    ensures var r := AvatarsFor(g);
            |r.shown.value| + r.overflow.GetOr(0) == MemberCount(g)
  {
  }

  // ---------------------------------------------------------------------------
  // Page state

  datatype GroupDraft = GroupDraft(name: string, description: string)

  const EmptyDraft := GroupDraft("", "")

  /** The body `createGroup` sends: the draft as it stands. */
  function DraftBody(d: GroupDraft): (body: Json)
    ensures body.JObject? && body.fields.Keys == {"name", "description"}
    ensures body.fields["name"] == JString(d.name) && body.fields["description"] == JString(d.description)
  {
    JObject(map["name" := JString(d.name), "description" := JString(d.description)])
  }

  datatype Screen = Screen(
    groups: seq<Group>,
    loading: bool,
    searchTerm: string,
    showCreateModal: bool,
    draft: GroupDraft,
    createLoading: bool,
    showInviteModal: bool,
    inviteEmail: string,
    inviteLoading: bool,
    inviteTarget: Option<int>)

  const Initial := Screen([], true, "", false, EmptyDraft, false, false, "", false, None)

  /** `fetchGroups` once the call has settled. */
  function AfterFetch(s: Screen, reply: Reply<seq<Group>>): (r: Screen)
    ensures !r.loading
    ensures r.groups == if reply.Ok? then reply.data else s.groups
    ensures r.(groups := s.groups, loading := s.loading) == s
  {
    if reply.Ok? then s.(groups := reply.data, loading := false) else s.(loading := false)
  }

  /** `handleCreateGroup` once the call has settled (the refetch is a separate `fetchGroups`). */
  function AfterCreate<T>(s: Screen, reply: Reply<T>): (r: Screen)
    ensures !r.createLoading
    ensures reply.Ok? ==> r.draft == EmptyDraft && !r.showCreateModal
    ensures reply.Failed? ==> r.draft == s.draft && r.showCreateModal == s.showCreateModal
    ensures r.(draft := s.draft, showCreateModal := s.showCreateModal, createLoading := s.createLoading) == s
  {
    if reply.Ok? then s.(draft := EmptyDraft, showCreateModal := false, createLoading := false)
    else s.(createLoading := false)
  }

  /** The Invite button of a group card. */
  function OpenInvite(s: Screen, groupId: int): (r: Screen)
    ensures r.inviteTarget == Some(groupId) && r.showInviteModal
    ensures r.(inviteTarget := s.inviteTarget, showInviteModal := s.showInviteModal) == s
  {
    s.(inviteTarget := Some(groupId), showInviteModal := true)
  }

  /** The Cancel button of the invite dialog. */
  function CancelInvite(s: Screen): (r: Screen)
    ensures r.inviteEmail == "" && r.inviteTarget.None? && !r.showInviteModal
    ensures r.(inviteEmail := s.inviteEmail, inviteTarget := s.inviteTarget, showInviteModal := s.showInviteModal) == s
  {
    s.(showInviteModal := false, inviteEmail := "", inviteTarget := None)
  }

  /** The guard of `handleSendInvite`: a group other than 0 is chosen and an e-mail typed. */
  predicate CanInvite(s: Screen) {
    s.inviteTarget.Some? && s.inviteTarget.value != 0 && s.inviteEmail != ""
  }

  /** `handleSendInvite` once the call (if any) has settled. */
  function AfterInvite<T>(s: Screen, reply: Reply<T>): (r: Screen)
    ensures !CanInvite(s) ==> r == s
    ensures CanInvite(s) ==> !r.inviteLoading
    ensures CanInvite(s) && reply.Ok? ==> r.inviteEmail == "" && r.inviteTarget.None? && !r.showInviteModal
    ensures CanInvite(s) && reply.Failed? ==> r == s.(inviteLoading := false)
    ensures r.(inviteEmail := s.inviteEmail, inviteTarget := s.inviteTarget,
               showInviteModal := s.showInviteModal, inviteLoading := s.inviteLoading) == s
  {
    if !CanInvite(s) then s
    else if reply.Ok? then CancelInvite(s).(inviteLoading := false)
    else s.(inviteLoading := false)
  }

  const InviteSent := "Invitation sent successfully!"
  const InviteFailed := "Failed to send invitation. Please try again."

  /** A successful invite leaves the dialog exactly as Cancel does. */
  lemma InviteSuccessResetsLikeCancel<T>(s: Screen, data: T)
    requires CanInvite(s)
    ensures AfterInvite(s, Ok(data)) == CancelInvite(s).(inviteLoading := false)
  {
  }

  /** After Cancel, or after a successful invite, a second submit does nothing. */
  lemma NoInviteAfterReset<T, U>(s: Screen, reply: Reply<T>, next: Reply<U>)
    ensures AfterInvite(CancelInvite(s), next) == CancelInvite(s)
    ensures reply.Ok? ==> var r := AfterInvite(s, reply); AfterInvite(r, next) == r
  {
  }

  /** Opening the dialog on a real group and typing an address is what enables the send. */
  lemma OpenThenTypeEnablesInvite(s: Screen, groupId: int, email: string)
    ensures CanInvite(OpenInvite(s, groupId).(inviteEmail := email)) <==> groupId != 0 && email != ""
  {
  }

  class GroupsView {
    var groups: seq<Group>
    var loading: bool
    var searchTerm: string
    var showCreateModal: bool
    var draft: GroupDraft
    var createLoading: bool
    var showInviteModal: bool
    var inviteEmail: string
    var inviteLoading: bool
    var inviteTarget: Option<int>

    constructor ()
      ensures Current() == Initial
    {
      groups := [];
      loading := true;
      searchTerm := "";
      showCreateModal := false;
      draft := EmptyDraft;
      createLoading := false;
      showInviteModal := false;
      inviteEmail := "";
      inviteLoading := false;
      inviteTarget := None;
    }

    function Current(): Screen
      reads this
    {
      Screen(groups, loading, searchTerm, showCreateModal, draft, createLoading,
             showInviteModal, inviteEmail, inviteLoading, inviteTarget)
    }

    method FetchGroups(reply: Reply<seq<Group>>) returns (request: Request)
      modifies this
      ensures request == Route(GetGroups)
      ensures Current() == AfterFetch(old(Current()), reply)
    {
      request := Route(GetGroups);
      if reply.Ok? {
        groups := reply.data;
      }
      loading := false;
    }

    method HandleCreateGroup<T>(reply: Reply<T>) returns (request: Request, refetch: bool)
      modifies this
      ensures request == Route(CreateGroup(DraftBody(old(draft))))
      ensures refetch <==> reply.Ok?
      ensures Current() == AfterCreate(old(Current()), reply)
    {
      createLoading := true;
      request := Route(CreateGroup(DraftBody(draft)));
      refetch := false;
      if reply.Ok? {
        draft := EmptyDraft;
        showCreateModal := false;
        refetch := true;
      }
      createLoading := false;
    }

    method OpenInviteFor(groupId: int)
      modifies this
      ensures Current() == OpenInvite(old(Current()), groupId)
    {
      inviteTarget := Some(groupId);
      showInviteModal := true;
    }

    method Cancel()
      modifies this
      ensures Current() == CancelInvite(old(Current()))
    {
      showInviteModal := false;
      inviteEmail := "";
      inviteTarget := None;
    }

    /**
     * `handleSendInvite`: the call made, if the guard lets it through, and the
     * text of the alert shown afterwards.
     */
    method HandleSendInvite<T>(reply: Reply<T>) returns (request: Option<Request>, notice: Option<string>)
      modifies this
      ensures request.Some? <==> CanInvite(old(Current()))
      ensures request.Some? ==> request.value == Route(SendInvitation(old(inviteTarget).value, old(inviteEmail)))
      ensures notice.Some? <==> request.Some?
      ensures notice.Some? ==> notice.value == if reply.Ok? then InviteSent else InviteFailed
      ensures Current() == AfterInvite(old(Current()), reply)
    {
      if inviteTarget.None? || inviteTarget.value == 0 || inviteEmail == "" {
        request := None;
        notice := None;
        return;
      }
      inviteLoading := true;
      request := Some(Route(SendInvitation(inviteTarget.value, inviteEmail)));
      if reply.Ok? {
        inviteEmail := "";
        showInviteModal := false;
        inviteTarget := None;
        notice := Some(InviteSent);
      } else {
        notice := Some(InviteFailed);
      }
      inviteLoading := false;
    }
  }
}
