/** The stored records of the expense tracker (users, expenses with their splits,
    settlements, groups), the error kinds the handlers raise, and the lookups every
    handler shares.

    Ids are integers so that they are ordered (the group ledger compares ids with
    `>=`); amounts are integers in cents. */
module Records {
  import opened Seqs

  type UserId = int
  type GroupId = int
  type ExpenseId = int
  type SettlementId = int

  datatype Option<T> = None | Some(value: T)

  /** The exceptions the handlers throw, one constructor per distinct message. */
  datatype Error =
    | Unauthorized              // no signed-in user
    | AmountNotPositive         // settlement amount <= 0
    | PayerIsReceiver           // settlement from a user to themselves
    | NotPayerOrReceiver        // caller is neither side of the settlement
    | GroupNotFound
    | NotGroupMember
    | UserNotFound
    | InvalidEntityType         // entityType is neither "user" nor "group"
    | SameUser                  // expenses between a user and themselves
    | ExpenseNotFound
    | NoDeletePermission
    | SplitSumMismatch          // split amounts do not add up to the expense amount
    | GroupNotFoundOrNotMember
    | EmptyGroupName
    | InvalidUser(id: UserId)   // a group member id that names no user
    | TypeError                 // a JavaScript property access on null or undefined
    | InvalidId                 // `ctx.db.get` on a value that is not a document id

  datatype Result<T> = Ok(value: T) | Err(error: Error)

  /** One participant's share of an expense. */
  datatype Split = Split(userId: UserId, amount: int, hasPaid: bool)

  datatype Expense = Expense(
    id: ExpenseId,
    description: string,
    amount: int,
    category: string,
    date: int,
    paidBy: UserId,
    splitType: string,
    splits: seq<Split>,
    groupId: Option<GroupId>,
    createdBy: UserId)

  datatype Settlement = Settlement(
    id: SettlementId,
    amount: int,
    note: Option<string>,
    date: int,
    paidBy: UserId,
    paidTo: UserId,
    groupId: Option<GroupId>,
    relatedExpenseIds: Option<seq<ExpenseId>>,
    createdBy: UserId)

  /** An element of a group's `members` array. Groups written by createGroup hold bare
      ids only; the readers also anticipate `{userId}` objects, `{_id}` objects and null. */
  datatype Member = Bare(id: UserId) | Ref(userId: UserId) | Doc(docId: UserId) | Null

  datatype Group = Group(
    id: GroupId,
    name: string,
    description: string,
    createdBy: UserId,
    members: seq<Member>)

  /** `members.some((m) => m === u)`, also `members.includes(u)`. */
  predicate HasBareMember(g: Group, u: UserId) {
    Bare(u) in g.members
  }

  /** `splits.some((s) => s.userId === u)` */
  predicate InSplits(splits: seq<Split>, u: UserId) {
    exists k :: 0 <= k < |splits| && splits[k].userId == u
  }

  /** `splits.find((s) => s.userId === u)`: the first split of `u`. */
  function FindSplit(splits: seq<Split>, u: UserId): (r: Option<Split>)
    ensures r.None? <==> !InSplits(splits, u)
    ensures r.Some? ==> exists k :: 0 <= k < |splits| && splits[k] == r.value && r.value.userId == u
                          && forall j :: 0 <= j < k ==> splits[j].userId != u
  {
    if splits == [] then None
    else if splits[0].userId == u then Some(splits[0])
    else
      var r := FindSplit(splits[1..], u);
      assert r.Some? ==> exists k :: 0 <= k < |splits[1..]| && splits[1..][k] == r.value && r.value.userId == u
                          && forall j :: 0 <= j < k ==> splits[1..][j].userId != u;
      assert r.Some? ==> exists k :: 0 <= k < |splits| && splits[k] == r.value && r.value.userId == u
                          && forall j :: 0 <= j < k ==> splits[j].userId != u;
      r
  }

  /** `splits.find((s) => s.userId === u && !s.hasPaid)`: the first unpaid split of `u`,
      which may come after a paid one. */
  function FindUnpaid(splits: seq<Split>, u: UserId): (r: Option<Split>)
    ensures r.None? <==> forall k :: 0 <= k < |splits| ==> splits[k].userId != u || splits[k].hasPaid
    ensures r.Some? ==> exists k :: 0 <= k < |splits| && splits[k] == r.value && r.value.userId == u
                          && !r.value.hasPaid
                          && forall j :: 0 <= j < k ==> splits[j].userId != u || splits[j].hasPaid
  {
    if splits == [] then None
    else if splits[0].userId == u && !splits[0].hasPaid then Some(splits[0])
    else
      var r := FindUnpaid(splits[1..], u);
      assert r.Some? ==> exists k :: 0 <= k < |splits[1..]| && splits[1..][k] == r.value
                          && forall j :: 0 <= j < k ==> splits[1..][j].userId != u || splits[1..][j].hasPaid;
      assert r.Some? ==> exists k :: 0 <= k < |splits| && splits[k] == r.value
                          && forall j :: 0 <= j < k ==> splits[j].userId != u || splits[j].hasPaid;
      r
  }

  /** The amount of `u`'s first unpaid split, or 0 when there is none. */
  function UnpaidShare(splits: seq<Split>, u: UserId): int {
    match FindUnpaid(splits, u)
    case Some(s) => s.amount
    case None => 0
  }

  /** `ctx.db.get(id)` on the groups table. */
  function FindGroup(groups: seq<Group>, id: GroupId): (r: Option<Group>)
    ensures r.None? <==> forall g :: g in groups ==> g.id != id
    ensures r.Some? ==> r.value in groups && r.value.id == id
  {
    if groups == [] then None
    else if groups[0].id == id then Some(groups[0])
    else FindGroup(groups[1..], id)
  }

  /** `ctx.db.get(id)` on the expenses table. */
  function FindExpense(expenses: seq<Expense>, id: ExpenseId): (r: Option<Expense>)
    ensures r.None? <==> forall e :: e in expenses ==> e.id != id
    ensures r.Some? ==> r.value in expenses && r.value.id == id
  {
    if expenses == [] then None
    else if expenses[0].id == id then Some(expenses[0])
    else FindExpense(expenses[1..], id)
  }

  /** `Math.max(0, x)` */
  function Max0(x: int): int {
    if x > 0 then x else 0
  }

  /** Index query `by_group` on expenses. */
  function InGroup(gid: GroupId): Expense -> bool {
    (e: Expense) => e.groupId == Some(gid)
  }

  /** The settlements recorded in a group. */
  function SettledInGroup(gid: GroupId): Settlement -> bool {
    (s: Settlement) => s.groupId == Some(gid)
  }

  /** The tables as the mutations see them. Every inserted document gets the id
      `nextId` and the counter moves on, so ids are fresh and distinct. */
  class Database {
    var users: seq<UserId>
    var expenses: seq<Expense>
    var settlements: seq<Settlement>
    var groups: seq<Group>
    var nextId: int

    ghost predicate Valid()
      reads this
    {
      && (forall i :: 0 <= i < |expenses| ==> expenses[i].id < nextId)
      && (forall i :: 0 <= i < |settlements| ==> settlements[i].id < nextId)
      && (forall i :: 0 <= i < |groups| ==> groups[i].id < nextId)
      && (forall i, j :: 0 <= i < j < |expenses| ==> expenses[i].id != expenses[j].id)
    }

    constructor (users: seq<UserId>)
      ensures Valid()
      ensures this.users == users && expenses == [] && settlements == [] && groups == []
    {
      this.users := users;
      expenses, settlements, groups := [], [], [];
      nextId := 0;
    }

    /** `ctx.db.insert("groups", …)` of a group carrying the next id. */
    method InsertGroup(g: Group)
      requires Valid() && g.id == nextId
      modifies this
      ensures Valid()
      ensures groups == old(groups) + [g] && nextId == old(nextId) + 1
      ensures users == old(users) && expenses == old(expenses) && settlements == old(settlements)
    {
      groups := groups + [g];
      nextId := nextId + 1;
    }
  }
}
