/** The contacts page (convex/contacts.js): the people the caller shares personal
    expenses with, the caller's groups, and the creation of a group. */
module Contacts {
  import opened Seqs
  import opened Records

  // ---------------------------------------------------------------------------
  // getAllContacts

  /** Index query `by_user_and_group`: the caller paid, outside any group. */
  function PaidByOutsideGroups(u: UserId): Expense -> bool {
    (e: Expense) => e.paidBy == u && e.groupId.None?
  }

  /** `by_group` with no group, then paid by somebody else, then with a split of the caller. */
  function SharedWith(u: UserId): Expense -> bool {
    (e: Expense) => e.groupId.None? && e.paidBy != u && InSplits(e.splits, u)
  }

  /** `[...expensesNotPaidByYou, ...expensesYouPaid]` */
  function PersonalExpenses(expenses: seq<Expense>, u: UserId): seq<Expense> {
    Filter(expenses, SharedWith(u)) + Filter(expenses, PaidByOutsideGroups(u))
  }

  /** Somebody other than `u` who paid or holds a split of `e`. */
  predicate OtherParty(e: Expense, u: UserId, x: UserId) {
    x != u && (x == e.paidBy || exists s :: s in e.splits && s.userId == x)
  }

  /** The inner loop: the split holders other than `u`, added in order. */
  function AddSplitUsers(acc: seq<UserId>, splits: seq<Split>, u: UserId): (r: seq<UserId>)
    ensures Distinct(acc) ==> Distinct(r)
    ensures forall x :: x in r <==> x in acc || (x != u && exists s :: s in splits && s.userId == x)
  {
    if splits == [] then acc
    else
      var s := splits[|splits| - 1];
      var r0 := AddSplitUsers(acc, splits[..|splits| - 1], u);
      assert forall t :: t in splits <==> t in splits[..|splits| - 1] || t == s;
      if s.userId != u then AddToSet(r0, s.userId) else r0
  }

  /** The `users` set after the parties of `e` are added. */
  function AddParties(acc: seq<UserId>, e: Expense, u: UserId): (r: seq<UserId>)
    ensures Distinct(acc) ==> Distinct(r)
    ensures forall x :: x in r <==> x in acc || OtherParty(e, u, x)
  {
    AddSplitUsers(if e.paidBy != u then AddToSet(acc, e.paidBy) else acc, e.splits, u)
  }

  /** The `users` set, in insertion order, after the outer loop over `es`. */
  function ContactIds(es: seq<Expense>, u: UserId): (r: seq<UserId>)
    ensures Distinct(r)
    ensures forall x :: x in r <==> exists e :: e in es && OtherParty(e, u, x)
  {
    if es == [] then []
    else
      var e := es[|es| - 1];
      assert forall d :: d in es <==> d in es[..|es| - 1] || d == e;
      AddParties(ContactIds(es[..|es| - 1], u), e, u)
  }

  /** `group.members.includes(u)` */
  function HasMember(u: UserId): Group -> bool {
    (g: Group) => HasBareMember(g, u)
  }

  /** `{users: contacts, groups: userGroups}`; a contact id naming no user reads null. */
  datatype ContactList = ContactList(users: seq<Option<UserId>>, groups: seq<Group>)

  function Lookup(users: seq<UserId>, id: UserId): Option<UserId> {
    if id in users then Some(id) else None
  }

  /** `Promise.all([...users].map((id) => ctx.db.get(id)))`: one lookup per id, in order. */
  function Resolve(ids: seq<UserId>, users: seq<UserId>): (r: seq<Option<UserId>>)
    ensures |r| == |ids| && forall k :: 0 <= k < |ids| ==> r[k] == Lookup(users, ids[k])
    ensures forall x :: Some(x) in r <==> x in ids && x in users
  {
    if ids == [] then []
    else
      var n := |ids| - 1;
      var r0 := Resolve(ids[..n], users);
      assert forall x :: x in ids <==> x in ids[..n] || x == ids[n];
      r0 + [Lookup(users, ids[n])]
  }

  /** getAllContacts for the signed-in user `u`. */
  function ContactsOf(u: UserId, users: seq<UserId>, expenses: seq<Expense>, groups: seq<Group>): (r: ContactList)
    ensures forall x :: Some(x) in r.users ==> x != u && x in users
    ensures forall e, x :: e in PersonalExpenses(expenses, u) && OtherParty(e, u, x) && x in users ==> Some(x) in r.users
    ensures forall g :: g in r.groups <==> g in groups && HasBareMember(g, u)
  {
    ContactList(Resolve(ContactIds(PersonalExpenses(expenses, u), u), users), Filter(groups, HasMember(u)))
  }

  lemma ContactIdsStep(es: seq<Expense>, i: int, u: UserId)
    requires 0 <= i < |es|
    ensures ContactIds(es[..i + 1], u) == AddParties(ContactIds(es[..i], u), es[i], u)
  {
    assert es[..i + 1][..i] == es[..i];
  }

  lemma SplitUsersStep(acc: seq<UserId>, splits: seq<Split>, j: int, u: UserId)
    requires 0 <= j < |splits|
    ensures AddSplitUsers(acc, splits[..j + 1], u)
            == var r0 := AddSplitUsers(acc, splits[..j], u);
               if splits[j].userId != u then AddToSet(r0, splits[j].userId) else r0
  {
    assert splits[..j + 1][..j] == splits[..j];
  }

  /** The index loops that fill the `users` set. */
  method CollectContacts(personalExpenses: seq<Expense>, u: UserId) returns (ids: seq<UserId>)
    ensures ids == ContactIds(personalExpenses, u)
  {
    ids := [];
    var i := 0;
    while i < |personalExpenses|
      invariant 0 <= i <= |personalExpenses|
      invariant ids == ContactIds(personalExpenses[..i], u)
    {
      var exp := personalExpenses[i];
      ContactIdsStep(personalExpenses, i, u);
      ghost var prev := ids;
      if exp.paidBy != u {
        ids := AddToSet(ids, exp.paidBy);
      }
      ghost var start := ids;
      var j := 0;
      while j < |exp.splits|
        invariant 0 <= j <= |exp.splits|
        invariant ids == AddSplitUsers(start, exp.splits[..j], u)
      {
        var split := exp.splits[j];
        SplitUsersStep(start, exp.splits, j, u);
        if split.userId != u {
          ids := AddToSet(ids, split.userId);
        }
        j := j + 1;
      }
      assert exp.splits[..j] == exp.splits;
      assert ids == AddParties(prev, exp, u);
      i := i + 1;
    }
    assert personalExpenses[..i] == personalExpenses;
  }

  /** getAllContacts */
  method GetAllContacts(u: UserId, users: seq<UserId>, expenses: seq<Expense>, groups: seq<Group>)
    returns (r: ContactList)
    ensures r == ContactsOf(u, users, expenses, groups)
  {
    var ids := CollectContacts(PersonalExpenses(expenses, u), u);
    r := ContactList(Resolve(ids, users), Filter(groups, HasMember(u)));
  }

  /** Every contact shares a personal expense with the caller: one the caller paid and
      the contact has a split of, or one the contact paid and the caller has a split of. */
  lemma ContactsShareExpenses(u: UserId, users: seq<UserId>, expenses: seq<Expense>, groups: seq<Group>, x: UserId)
    requires Some(x) in ContactsOf(u, users, expenses, groups).users
    ensures exists e :: e in expenses && e.groupId.None? && OtherParty(e, u, x) && (e.paidBy == u || InSplits(e.splits, u))
  {
    var e :| e in PersonalExpenses(expenses, u) && OtherParty(e, u, x);
    assert e in Filter(expenses, SharedWith(u)) || e in Filter(expenses, PaidByOutsideGroups(u));
  }

  // ---------------------------------------------------------------------------
  // createGroup

  /** `new Set(args.members)` with the creator added. */
  function GroupMembers(members: seq<UserId>, caller: UserId): (r: seq<UserId>)
    ensures Distinct(r) && caller in r
    ensures forall x :: x in r <==> x in members || x == caller
  {
    AddToSet(Dedup(members), caller)
  }

  /** The first id in `ids` that names no user. */
  function FirstInvalid(ids: seq<UserId>, users: seq<UserId>): (r: Option<UserId>)
    ensures r.None? <==> forall x :: x in ids ==> x in users
    ensures r.Some? ==> r.value in ids && r.value !in users
  {
    if ids == [] then None
    else if ids[0] !in users then
      var x := ids[0];
      assert x in ids && x !in users;
      Some(x)
    else
      assert forall x :: x in ids <==> x == ids[0] || x in ids[1..];
      FirstInvalid(ids[1..], users)
  }

  /** The check stops at the first id that names no user. */
  lemma {:induction false} FirstInvalidAt(ids: seq<UserId>, users: seq<UserId>, i: int)
    requires 0 <= i < |ids| && ids[i] !in users
    requires forall k :: 0 <= k < i ==> ids[k] in users
    ensures FirstInvalid(ids, users) == Some(ids[i])
  {
    if i > 0 {
      FirstInvalidAt(ids[1..], users, i - 1);
    }
  }

  /** The guards of createGroup, in order: an empty name, then the first member (in set
      order) that names no user. */
  function CheckGroup(caller: UserId, name: string, members: seq<UserId>, users: seq<UserId>): (r: Option<Error>)
    ensures r.None? <==> name != "" && caller in users && forall x :: x in members ==> x in users
    ensures name == "" ==> r == Some(EmptyGroupName)
    ensures name != "" && r.Some? ==> r.value.InvalidUser? && r.value.id !in users
                                      && (r.value.id in members || r.value.id == caller)
  {
    if name == "" then Some(EmptyGroupName)
    else match FirstInvalid(GroupMembers(members, caller), users)
      case Some(id) => Some(InvalidUser(id))
      case None => None
  }

  /** `Array.from(uniqueMembers)`: the ids, stored as bare ids in set order. */
  function Bares(ids: seq<UserId>): (r: seq<Member>)
    ensures |r| == |ids| && forall k :: 0 <= k < |ids| ==> r[k] == Bare(ids[k])
    ensures forall x :: Bare(x) in r <==> x in ids
    ensures forall m :: m in r ==> m.Bare?
  {
    if ids == [] then []
    else
      var n := |ids| - 1;
      assert forall x :: x in ids <==> x in ids[..n] || x == ids[n];
      Bares(ids[..n]) + [Bare(ids[n])]
  }

  function NewGroup(id: GroupId, caller: UserId, name: string, description: string, members: seq<UserId>): Group {
    Group(id, name, description, caller, Bares(members))
  }

  /** createGroup: the stored member list holds each member once, the creator among them. */
  method CreateGroup(db: Database, caller: UserId, name: string, description: string, members: seq<UserId>)
    returns (r: Result<GroupId>)
    requires db.Valid()
    modifies db
    ensures db.Valid()
    ensures r.Ok? <==> CheckGroup(caller, name, members, old(db.users)).None?
    ensures r.Err? ==> Some(r.error) == CheckGroup(caller, name, members, old(db.users)) && unchanged(db)
    ensures r.Ok? ==> r.value == old(db.nextId)
                      && (forall g :: g in old(db.groups) ==> g.id != r.value)
                      && db.groups == old(db.groups) + [NewGroup(r.value, caller, name, description,
                                                                 GroupMembers(members, caller))]
                      && db.expenses == old(db.expenses) && db.settlements == old(db.settlements)
                      && db.users == old(db.users)
  {
    if name == "" {
      return Err(EmptyGroupName);
    }
    var uniqueMembers := GroupMembers(members, caller);
    var i := 0;
    while i < |uniqueMembers|
      invariant 0 <= i <= |uniqueMembers|
      invariant forall k :: 0 <= k < i ==> uniqueMembers[k] in db.users
    {
      if uniqueMembers[i] !in db.users {
        FirstInvalidAt(uniqueMembers, db.users, i);
        assert CheckGroup(caller, name, members, db.users) == Some(InvalidUser(uniqueMembers[i]));
        return Err(InvalidUser(uniqueMembers[i]));
      }
      i := i + 1;
    }
    assert forall x :: x in uniqueMembers ==> x in db.users;
    assert CheckGroup(caller, name, members, db.users) == None;
    var id := db.nextId;
    db.InsertGroup(NewGroup(id, caller, name, description, uniqueMembers));
    r := Ok(id);
  }

  /** The stored group lists the creator, each member once, and exactly the requested
      members besides, and was created by the caller. */
  lemma NewGroupMembers(id: GroupId, caller: UserId, name: string, description: string, members: seq<UserId>)
    ensures var g := NewGroup(id, caller, name, description, GroupMembers(members, caller));
      && g.createdBy == caller
      && HasBareMember(g, caller)
      && (forall i, j :: 0 <= i < j < |g.members| ==> g.members[i] != g.members[j])
      && forall x :: Bare(x) in g.members <==> x in members || x == caller
  {
    var ms := GroupMembers(members, caller);
    var g := NewGroup(id, caller, name, description, ms);
    forall i, j | 0 <= i < j < |g.members|
      ensures g.members[i] != g.members[j]
    {
      assert ms[i] != ms[j];
    }
    assert Bare(caller) in g.members;
  }
}
