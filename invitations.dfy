/**
 * The invitations page (src/pages/Invitations.tsx): the joined fetch of
 * invitations and groups, the card each invitation gets, and the removal
 * of an invitation once it has been accepted or rejected.
 */
module InvitationsPage {
  import opened Wrappers
  import opened Text
  import opened Lists
  import opened Entities
  import opened Gateway

  /** `invitations.filter(inv => inv.id !== id)`. */
  function RemoveById(invitations: seq<Invitation>, id: int): (r: seq<Invitation>)
    ensures IsSubsequence(r, invitations)
    ensures forall x :: x in r <==> x in invitations && x.id != id
    ensures forall x: Invitation :: x.id != id ==> multiset(r)[x] == multiset(invitations)[x]
  {
    Filter(invitations, (x: Invitation) => x.id != id)
  }

  /** Removing an id that no invitation carries changes nothing. */
  lemma RemoveAbsentId(invitations: seq<Invitation>, id: int)
    requires forall i :: 0 <= i < |invitations| ==> invitations[i].id != id
    ensures RemoveById(invitations, id) == invitations
  {
    FilterKeepsAll(invitations, (x: Invitation) => x.id != id);
  }

  /** A second removal of the same id is a no-op. */
  lemma RemoveByIdIdempotent(invitations: seq<Invitation>, id: int)
    ensures RemoveById(RemoveById(invitations, id), id) == RemoveById(invitations, id)
  {
    var once := RemoveById(invitations, id);
    assert forall i :: 0 <= i < |once| ==> once[i] in once;
    RemoveAbsentId(once, id);
  }

  /** `getGroupById`: the first group with that id. */
  function GroupById(groups: seq<Group>, id: int): (r: Option<Group>)
    ensures r.Some? ==> r.value in groups && r.value.id == id
    ensures r.None? <==> forall i :: 0 <= i < |groups| ==> groups[i].id != id
    ensures r.Some? ==> exists i :: 0 <= i < |groups| && groups[i] == r.value &&
                          forall j :: 0 <= j < i ==> groups[j].id != id
  {
    Find(groups, (g: Group) => g.id == id)
  }

  const UserPrefix := "User "
  const GroupPrefix := "Group "

  /** `getUserNameById`: a placeholder label from which the id can be read back. */
  function InviterLabel(userId: int): (r: string)
    ensures |r| > |UserPrefix| && r[..|UserPrefix|] == UserPrefix
    ensures ParseDecimal(r[|UserPrefix|..]) == Some(userId)
  {
    var r := UserPrefix + Decimal(userId);
    assert r[|UserPrefix|..] == Decimal(userId);
    DecimalRoundTrip(userId);
    r
  }

  /** Different inviters get different labels. */
  lemma InviterLabelInjective(a: int, b: int)
    requires InviterLabel(a) == InviterLabel(b)
    ensures a == b
  {
  }

  /** The heading of a card whose group is not among the fetched groups; the id can be read back. */
  function UnknownGroupHeading(groupId: int): (r: string)
    ensures |r| > |GroupPrefix| && r[..|GroupPrefix|] == GroupPrefix
    ensures ParseDecimal(r[|GroupPrefix|..]) == Some(groupId)
  {
    var r := GroupPrefix + Decimal(groupId);
    assert r[|GroupPrefix|..] == Decimal(groupId);
    DecimalRoundTrip(groupId);
    r
  }

  /** What one invitation card shows. */
  datatype CardView = CardView(avatar: string, heading: string, inviter: string, hasActions: bool)

  /** The avatar letter: the group name's first character upper-cased, or 'G' when the group is unknown. */
  function AvatarLetter(group: Option<Group>): (r: string)
    ensures group.None? ==> r == "G"
    ensures group.Some? && group.value.name == "" ==> r == ""
    ensures group.Some? && group.value.name != "" ==> |r| == 1 && r[0] == UpperChar(group.value.name[0])
  {
    match group
    case None => "G"
    case Some(g) => if g.name == "" then "" else Upper(g.name[..1])
  }

  function CardFor(inv: Invitation, groups: seq<Group>): (c: CardView)
    ensures c.hasActions <==> inv.status.Pending?
    ensures c.inviter == InviterLabel(inv.invitedBy)
    ensures c.avatar == AvatarLetter(GroupById(groups, inv.groupId))
    ensures GroupById(groups, inv.groupId).Some? ==> c.heading == GroupById(groups, inv.groupId).value.name
    ensures GroupById(groups, inv.groupId).None? ==>
              |c.heading| > |GroupPrefix| && c.heading[..|GroupPrefix|] == GroupPrefix &&
              ParseDecimal(c.heading[|GroupPrefix|..]) == Some(inv.groupId)
  {
    var group := GroupById(groups, inv.groupId);
    var heading := if group.Some? then group.value.name else UnknownGroupHeading(inv.groupId);
    CardView(AvatarLetter(group), heading, InviterLabel(inv.invitedBy), inv.status == Pending)
  }

  /** Only pending invitations can be acted on, whatever the groups. */
  lemma ActionsOnlyWhenPending(invitations: seq<Invitation>, groups: seq<Group>)
    ensures forall i :: 0 <= i < |invitations| && CardFor(invitations[i], groups).hasActions ==>
              invitations[i].status == Pending
  {
  }

  // ---------------------------------------------------------------------------
  // Page state

  datatype Screen = Screen(invitations: seq<Invitation>, groups: seq<Group>, loading: bool)

  const Initial := Screen([], [], true)

  /** `fetchInvitations` once the joined calls have settled; 404 and 405 are only logged. */
  function AfterFetch(s: Screen, reply: Reply<(seq<Invitation>, seq<Group>)>): (r: Screen)
    ensures !r.loading
    ensures reply.Ok? ==> r.invitations == reply.data.0 && r.groups == reply.data.1
    ensures reply.Failed? ==> r.invitations == s.invitations && r.groups == s.groups
  {
    match reply
    case Ok((xs, gs)) => Screen(xs, gs, false)
    case Failed(_) => s.(loading := false)
  }

  /** Accepting or rejecting `id` once the call has settled: same effect either way. */
  function AfterDecision<T>(s: Screen, id: int, reply: Reply<T>): (r: Screen)
    ensures r.groups == s.groups && r.loading == s.loading
    ensures reply.Failed? ==> r == s
    ensures reply.Ok? ==> r.invitations == RemoveById(s.invitations, id)
  {
    if reply.Ok? then s.(invitations := RemoveById(s.invitations, id)) else s
  }

  /** Accepting a card's invitation removes it and every other invitation with its id, and only those. */
  lemma DecisionRemovesCard<T>(s: Screen, inv: Invitation, data: T)
    requires inv in s.invitations
    ensures inv !in AfterDecision(s, inv.id, Ok(data)).invitations
    ensures forall x :: x in s.invitations && x.id != inv.id ==> x in AfterDecision(s, inv.id, Ok(data)).invitations
  {
  }

  /** Deciding twice on the same id (the second call succeeding or not) is the same as deciding once. */
  lemma DecisionIdempotent<T, U>(s: Screen, id: int, first: T, second: Reply<U>)
    ensures var once := AfterDecision(s, id, Ok(first));
            AfterDecision(once, id, second) == once
  {
    RemoveByIdIdempotent(s.invitations, id);
  }

  const AcceptedNotice := "Invitation accepted! You can now access this group."
  const AcceptFailed := "Failed to accept invitation. Please try again."
  const RejectedNotice := "Invitation rejected."
  const RejectFailed := "Failed to reject invitation. Please try again."

  class InvitationsView {
    var invitations: seq<Invitation>
    var groups: seq<Group>
    var loading: bool

    constructor ()
      ensures Current() == Initial
    {
      invitations := [];
      groups := [];
      loading := true;
    }

    function Current(): Screen
      reads this
    {
      Screen(invitations, groups, loading)
    }

    method FetchInvitations(invitationsReply: Reply<seq<Invitation>>, groupsReply: Reply<seq<Group>>)
      returns (requests: seq<Request>)
      modifies this
      ensures requests == [Route(GetInvitations), Route(GetGroups)]
      ensures Current() == AfterFetch(old(Current()), JoinReplies(invitationsReply, groupsReply))
    {
      requests := [Route(GetInvitations), Route(GetGroups)];
      var joined := JoinReplies(invitationsReply, groupsReply);
      if joined.Ok? {
        invitations := joined.data.0;
        groups := joined.data.1;
      }
      loading := false;
    }

    method HandleAccept<T>(invitationId: int, reply: Reply<T>) returns (request: Request, notice: string)
      modifies this
      ensures request == Route(AcceptInvitation(invitationId))
      ensures notice == if reply.Ok? then AcceptedNotice else AcceptFailed
      ensures Current() == AfterDecision(old(Current()), invitationId, reply)
    {
      request := Route(AcceptInvitation(invitationId));
      if reply.Ok? {
        invitations := RemoveById(invitations, invitationId);
        notice := AcceptedNotice;
      } else {
        notice := AcceptFailed;
      }
    }

    method HandleReject<T>(invitationId: int, reply: Reply<T>) returns (request: Request, notice: string)
      modifies this
      ensures request == Route(RejectInvitation(invitationId))
      ensures notice == if reply.Ok? then RejectedNotice else RejectFailed
      ensures Current() == AfterDecision(old(Current()), invitationId, reply)
    {
      request := Route(RejectInvitation(invitationId));
      if reply.Ok? {
        invitations := RemoveById(invitations, invitationId);
        notice := RejectedNotice;
      } else {
        notice := RejectFailed;
      }
    }
  }
}
