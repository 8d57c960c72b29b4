/**
 * The resource shapes the remote API returns (src/lib/api.ts), the JSON
 * bodies the client sends, and the outcome of one HTTP call.
 */
module Entities {
  import opened Wrappers

  datatype User = User(id: int, name: string, email: string)

  datatype GroupMember = GroupMember(userId: int, userName: string)

  /** `description`, `members` and `created_at` are optional in the API. */
  datatype Group = Group(
    id: int,
    name: string,
    description: Option<string>,
    members: Option<seq<GroupMember>>,
    createdAt: Option<string>)

  /** A field that arrives either as the embedded object or as its bare id. */
  datatype GroupRef = Full(group: Group) | Ref(id: int)
  datatype UserRef = FullUser(user: User) | UserId(id: int)

  /** `amount` is carried, never computed with. */
  datatype Expense = Expense(
    id: int,
    description: string,
    amount: real,
    paidBy: UserRef,
    group: GroupRef,
    splitBetween: seq<UserRef>,
    createdAt: string)

  datatype InvitationStatus = Pending | Accepted | Rejected

  datatype Invitation = Invitation(
    id: int,
    groupId: int,
    invitedBy: int,
    invitedEmail: string,
    status: InvitationStatus,
    createdAt: string)

  /** A JSON value, for request bodies. */
  datatype Json =
    | JNull
    | JBool(b: bool)
    | JNumber(n: real)
    | JString(s: string)
    | JArray(items: seq<Json>)
    | JObject(fields: map<string, Json>)

  /**
   * The settled outcome of one HTTP call: the response data, or a rejection
   * carrying the response status (`None` when no response arrived at all).
   */
  datatype Reply<+T> = Ok(data: T) | Failed(status: Option<int>)

  /**
   * `Promise.all` over two calls: both results, or a rejection as soon as
   * either call fails. Which rejection wins when both fail depends on timing;
   * here it is the first one, and no caller inspects it.
   */
  function JoinReplies<A, B>(a: Reply<A>, b: Reply<B>): (r: Reply<(A, B)>)
    ensures r.Ok? <==> a.Ok? && b.Ok?
    ensures r.Ok? ==> r.data.0 == a.data && r.data.1 == b.data
  {
    match a
    case Failed(s) => Failed(s)
    case Ok(x) =>
      match b
      case Failed(s) => Failed(s)
      case Ok(y) => Ok((x, y))
  }
}
