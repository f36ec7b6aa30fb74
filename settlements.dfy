/** convex/settlements.js: the createSettlement mutation, and getSettlementData with
    its two views: the balance with one other user, and the caller's tally against
    every other member of a group. */
module Settlements {
  import opened Seqs
  import opened Records
  import Expenses

  // ---------------------------------------------------------------- createSettlement

  datatype SettlementArgs = SettlementArgs(
    amount: int,
    note: Option<string>,
    paidBy: UserId,
    paidTo: UserId,
    groupId: Option<GroupId>,
    relatedExpenses: Option<seq<ExpenseId>>)

  /** The guards of createSettlement in order; `None` lets the insert happen. */
  function CheckSettlement(caller: Option<UserId>, args: SettlementArgs, groups: seq<Group>): (r: Option<Error>)
    ensures r.None? <==>
              && caller.Some?
              && args.amount > 0
              && args.paidBy != args.paidTo
              && (caller.value == args.paidBy || caller.value == args.paidTo)
              && (args.groupId.Some? ==>
                    (FindGroup(groups, args.groupId.value).Some?
                     && HasBareMember(FindGroup(groups, args.groupId.value).value, caller.value)))
    ensures caller.None? ==> r == Some(Unauthorized)
    ensures caller.Some? && args.amount <= 0 ==> r == Some(AmountNotPositive)
    ensures r == Some(PayerIsReceiver) <==> caller.Some? && args.amount > 0 && args.paidBy == args.paidTo
    ensures r == Some(NotPayerOrReceiver) <==>
              caller.Some? && args.amount > 0 && args.paidBy != args.paidTo
              && caller.value != args.paidBy && caller.value != args.paidTo
    ensures r == Some(GroupNotFound) ==> args.groupId.Some? && FindGroup(groups, args.groupId.value).None?
    ensures r == Some(NotGroupMember) ==>
              args.groupId.Some? && FindGroup(groups, args.groupId.value).Some?
              && !HasBareMember(FindGroup(groups, args.groupId.value).value, caller.value)
  {
    if caller.None? then Some(Unauthorized)
    else if args.amount <= 0 then Some(AmountNotPositive)
    else if args.paidBy == args.paidTo then Some(PayerIsReceiver)
    else if caller.value != args.paidBy && caller.value != args.paidTo then Some(NotPayerOrReceiver)
    else if args.groupId.Some? && FindGroup(groups, args.groupId.value).None? then Some(GroupNotFound)
    else if args.groupId.Some? && !HasBareMember(FindGroup(groups, args.groupId.value).value, caller.value) then
      Some(NotGroupMember)
    else None
  }

  /** The inserted record. The related expense ids are read from an argument field
      that does not exist (`relatedExpenseIds`, the argument being `relatedExpenses`),
      so they are never stored. */
  function NewSettlement(id: SettlementId, now: int, caller: UserId, args: SettlementArgs): Settlement {
    Settlement(id, args.amount, args.note, now, args.paidBy, args.paidTo, args.groupId, None, caller)
  }

  /** `now` stands for `Date.now()`. */
  method CreateSettlement(db: Database, caller: Option<UserId>, args: SettlementArgs, now: int)
    returns (r: Result<SettlementId>)
    requires db.Valid()
    modifies db
    ensures db.Valid()
    ensures r.Ok? <==> CheckSettlement(caller, args, old(db.groups)).None?
    ensures r.Err? ==> Some(r.error) == CheckSettlement(caller, args, old(db.groups)) && unchanged(db)
    ensures r.Ok? ==> r.value == old(db.nextId)
                      && (forall s :: s in old(db.settlements) ==> s.id != r.value)
                      && db.settlements == old(db.settlements) + [NewSettlement(r.value, now, caller.value, args)]
                      && db.expenses == old(db.expenses) && db.groups == old(db.groups)
                      && db.users == old(db.users)
    ensures r.Ok? ==> var s := db.settlements[|db.settlements| - 1];
                      && s.amount > 0 && s.paidBy != s.paidTo
                      && s.createdBy == caller.value && (s.createdBy == s.paidBy || s.createdBy == s.paidTo)
                      && s.relatedExpenseIds.None?
  {
    var check := CheckSettlement(caller, args, db.groups);
    if check.Some? {
      return Err(check.value);
    }
    var id := db.nextId;
    db.settlements := db.settlements + [NewSettlement(id, now, caller.value, args)];
    db.nextId := db.nextId + 1;
    r := Ok(id);
  }

  // ---------------------------------------------------------------- user view

  /** Involvement as this view decides it: both users appear in the splits; being the
      payer is not enough. */
  predicate BothInSplits(e: Expense, me: UserId, other: UserId) {
    InSplits(e.splits, me) && InSplits(e.splits, other)
  }

  /** What one expense adds to `owed` (they owe me): their unpaid split when I paid. */
  function OwedTerm(e: Expense, me: UserId, other: UserId): int {
    if BothInSplits(e, me, other) && e.paidBy == me then UnpaidShare(e.splits, other) else 0
  }

  /** What one expense adds to `owes` (I owe them): my unpaid split when they paid. */
  function OwesTerm(e: Expense, me: UserId, other: UserId): int {
    if BothInSplits(e, me, other) && e.paidBy != me && e.paidBy == other then UnpaidShare(e.splits, me) else 0
  }

  /** What one settlement takes off `owes`: one I paid to them. */
  function OwesRepaid(s: Settlement, me: UserId, other: UserId): int {
    if s.paidBy == me && s.paidTo == other then Max0(s.amount) else 0
  }

  /** What one settlement takes off `owed`: one they paid to me. */
  function OwedRepaid(s: Settlement, me: UserId, other: UserId): int {
    if !(s.paidBy == me && s.paidTo == other) && s.paidBy == other && s.paidTo == me then Max0(s.amount) else 0
  }

  function OwedTermOf(me: UserId, other: UserId): Expense -> int {
    (e: Expense) => OwedTerm(e, me, other)
  }

  function OwesTermOf(me: UserId, other: UserId): Expense -> int {
    (e: Expense) => OwesTerm(e, me, other)
  }

  function OwesRepaidOf(me: UserId, other: UserId): Settlement -> int {
    (s: Settlement) => OwesRepaid(s, me, other)
  }

  function OwedRepaidOf(me: UserId, other: UserId): Settlement -> int {
    (s: Settlement) => OwedRepaid(s, me, other)
  }

  /** Index query `by_user_and_group` on settlements with `paidBy = u` and no group. */
  function PaidPersonallyBy(u: UserId): Settlement -> bool {
    (s: Settlement) => s.paidBy == u && s.groupId.None?
  }

  /** The personal expenses paid by me, then those paid by the other user. */
  function ViewExpenses(expenses: seq<Expense>, me: UserId, other: UserId): seq<Expense> {
    Expenses.PaidPersonally(expenses, me) + Expenses.PaidPersonally(expenses, other)
  }

  /** The personal settlements paid by me, then those paid by the other user. */
  function ViewSettlements(settlements: seq<Settlement>, me: UserId, other: UserId): seq<Settlement> {
    Filter(settlements, PaidPersonallyBy(me)) + Filter(settlements, PaidPersonallyBy(other))
  }

  /** The user branch's result (the counterpart's name, email and image are left out). */
  datatype UserView = UserView(counterpart: UserId, youAreOwed: int, youOwe: int, netBalance: int)

  function UserViewOf(expenses: seq<Expense>, settlements: seq<Settlement>, me: UserId, other: UserId): UserView {
    var es := ViewExpenses(expenses, me, other);
    var ss := ViewSettlements(settlements, me, other);
    var owed := SumBy(es, OwedTermOf(me, other)) - SumBy(ss, OwedRepaidOf(me, other));
    var owes := SumBy(es, OwesTermOf(me, other)) - SumBy(ss, OwesRepaidOf(me, other));
    UserView(other, owed, owes, owed - owes)
  }

  /** The loops of the user branch. */
  method UserBalance(me: UserId, other: UserId, expenses: seq<Expense>, settlements: seq<Settlement>)
    returns (v: UserView)
    ensures v == UserViewOf(expenses, settlements, me, other)
    ensures v.netBalance == v.youAreOwed - v.youOwe
  {
    var es := ViewExpenses(expenses, me, other);
    var owes, owed := 0, 0;
    var i := 0;
    while i < |es|
      invariant 0 <= i <= |es|
      invariant owed == SumBy(es[..i], OwedTermOf(me, other))
      invariant owes == SumBy(es[..i], OwesTermOf(me, other))
    {
      var e := es[i];
      SumBySnoc(es, i, OwedTermOf(me, other));
      SumBySnoc(es, i, OwesTermOf(me, other));
      i := i + 1;
      if !InSplits(e.splits, me) || !InSplits(e.splits, other) {
        continue;
      }
      if e.paidBy == me {
        var split := FindUnpaid(e.splits, other);
        if split.Some? {
          owed := owed + split.value.amount;
        }
      } else if e.paidBy == other {
        var split := FindUnpaid(e.splits, me);
        if split.Some? {
          owes := owes + split.value.amount;
        }
      }
    }
    assert es[..i] == es;
    var ss := ViewSettlements(settlements, me, other);
    var owedBefore, owesBefore := owed, owes;
    var k := 0;
    while k < |ss|
      invariant 0 <= k <= |ss|
      invariant owed == owedBefore - SumBy(ss[..k], OwedRepaidOf(me, other))
      invariant owes == owesBefore - SumBy(ss[..k], OwesRepaidOf(me, other))
    {
      var st := ss[k];
      if st.paidBy == me && st.paidTo == other {
        owes := owes - Max0(st.amount);
      } else if st.paidBy == other && st.paidTo == me {
        owed := owed - Max0(st.amount);
      }
      SumBySnoc(ss, k, OwedRepaidOf(me, other));
      SumBySnoc(ss, k, OwesRepaidOf(me, other));
      k := k + 1;
    }
    assert ss[..k] == ss;
    v := UserView(other, owed, owes, owed - owes);
  }

  /** Settlements only lower the tallies: each is at most what the expenses alone give,
      and those expense tallies are non-negative when split amounts are. */
  lemma {:induction false} UserSettlementsOnlyLower(expenses: seq<Expense>, settlements: seq<Settlement>, me: UserId, other: UserId)
    requires forall e :: e in expenses ==> forall s :: s in e.splits ==> s.amount >= 0
    ensures var v := UserViewOf(expenses, settlements, me, other);
            var es := ViewExpenses(expenses, me, other);
            && 0 <= SumBy(es, OwedTermOf(me, other)) && v.youAreOwed <= SumBy(es, OwedTermOf(me, other))
            && 0 <= SumBy(es, OwesTermOf(me, other)) && v.youOwe <= SumBy(es, OwesTermOf(me, other))
  {
    var es := ViewExpenses(expenses, me, other);
    var ss := ViewSettlements(settlements, me, other);
    SumByNonNegative(ss, OwedRepaidOf(me, other));
    SumByNonNegative(ss, OwesRepaidOf(me, other));
    forall e | e in es
      ensures OwedTermOf(me, other)(e) >= 0 && OwesTermOf(me, other)(e) >= 0
    {
      assert e in expenses;
      var a, b := FindUnpaid(e.splits, other), FindUnpaid(e.splits, me);
      assert a.Some? ==> a.value in e.splits;
      assert b.Some? ==> b.value in e.splits;
    }
    SumByNonNegative(es, OwedTermOf(me, other));
    SumByNonNegative(es, OwesTermOf(me, other));
  }

  /** The expense half of UserViewMatchesPairBalance. */
  lemma {:induction false} UserViewExpensesMatch(expenses: seq<Expense>, me: UserId, other: UserId)
    requires me != other
    requires forall e :: e in expenses && e.groupId.None? && (e.paidBy == me || e.paidBy == other)
                         ==> InSplits(e.splits, e.paidBy)
    ensures var es := ViewExpenses(expenses, me, other);
            SumBy(es, OwedTermOf(me, other)) - SumBy(es, OwesTermOf(me, other))
            == Expenses.ExpenseBalance(Expenses.ExpensesBetween(expenses, me, other), me, other)
  {
    var es := ViewExpenses(expenses, me, other);
    Expenses.InvolvementFilterImmaterial(es, me, other);
    forall e | e in es
      ensures OwedTermOf(me, other)(e) == Expenses.ExpenseTermOf(me, other)(e) + OwesTermOf(me, other)(e)
    {
      assert InSplits(e.splits, e.paidBy);
      if !InSplits(e.splits, other) {
        assert FindUnpaid(e.splits, other).None?;
      }
      if !InSplits(e.splits, me) {
        assert FindUnpaid(e.splits, me).None?;
      }
    }
    SumByAdd(es, Expenses.ExpenseTermOf(me, other), OwesTermOf(me, other), OwedTermOf(me, other));
  }

  /** One settlement's contribution to `owed - owes`, counted once in each of the two
      index queries, is its contribution to the pair balance. */
  lemma SettlementContribution(s: Settlement, me: UserId, other: UserId)
    requires me != other
    requires s.groupId.None? && ((s.paidBy == me && s.paidTo == other) || (s.paidBy == other && s.paidTo == me))
             ==> s.amount >= 0
    ensures (if PaidPersonallyBy(me)(s) then OwesRepaid(s, me, other) - OwedRepaid(s, me, other) else 0)
            + (if PaidPersonallyBy(other)(s) then OwesRepaid(s, me, other) - OwedRepaid(s, me, other) else 0)
            == if Expenses.SettledBetween(me, other)(s) then Expenses.SettlementTerm(s, me) else 0
  {
  }

  /** The settlement half of UserViewMatchesPairBalance. */
  lemma {:induction false} UserViewSettlementsMatch(settlements: seq<Settlement>, me: UserId, other: UserId)
    requires me != other
    requires forall s :: s in settlements && s.groupId.None?
                         && ((s.paidBy == me && s.paidTo == other) || (s.paidBy == other && s.paidTo == me))
                         ==> s.amount >= 0
    ensures var ss := ViewSettlements(settlements, me, other);
            SumBy(ss, OwesRepaidOf(me, other)) - SumBy(ss, OwedRepaidOf(me, other))
            == Expenses.SettlementBalance(Expenses.SettlementsBetween(settlements, me, other), me)
  {
    var sm, so := Filter(settlements, PaidPersonallyBy(me)), Filter(settlements, PaidPersonallyBy(other));
    var ss := sm + so;
    var d := (s: Settlement) => OwesRepaid(s, me, other) - OwedRepaid(s, me, other);
    SumByAdd(ss, d, OwedRepaidOf(me, other), OwesRepaidOf(me, other));
    SumByConcat(sm, so, d);
    var dm := (s: Settlement) => if PaidPersonallyBy(me)(s) then d(s) else 0;
    var dOther := (s: Settlement) => if PaidPersonallyBy(other)(s) then d(s) else 0;
    SumByFilter(settlements, PaidPersonallyBy(me), d, dm);
    SumByFilter(settlements, PaidPersonallyBy(other), d, dOther);
    var between := Expenses.SettledBetween(me, other);
    var g := (s: Settlement) => if between(s) then Expenses.SettlementTerm(s, me) else 0;
    SumByFilter(settlements, between, Expenses.SettlementTermOf(me), g);
    forall s | s in settlements
      ensures g(s) == dm(s) + dOther(s)
    {
      SettlementContribution(s, me, other);
    }
    SumByAdd(settlements, dm, dOther, g);
  }

  /** Where the two handlers' involvement rules coincide — every personal expense of
      either user lists its payer among the splits — and the settlements between them
      are not negative, this view's net balance is the balance getExpenseBetweenUsers
      reports. */
  lemma UserViewMatchesPairBalance(expenses: seq<Expense>, settlements: seq<Settlement>, me: UserId, other: UserId)
    requires me != other
    requires forall e :: e in expenses && e.groupId.None? && (e.paidBy == me || e.paidBy == other)
                         ==> InSplits(e.splits, e.paidBy)
    requires forall s :: s in settlements && s.groupId.None?
                         && ((s.paidBy == me && s.paidTo == other) || (s.paidBy == other && s.paidTo == me))
                         ==> s.amount >= 0
    ensures UserViewOf(expenses, settlements, me, other).netBalance == Expenses.PairBalance(expenses, settlements, me, other)
  {
    UserViewExpensesMatch(expenses, me, other);
    UserViewSettlementsMatch(settlements, me, other);
  }

  /** The two involvement rules disagree: for an expense that I paid and split only to
      the other user, getExpenseBetweenUsers counts their share and this view does not. */
  lemma InvolvementRulesDiffer()
    ensures var e := Expense(1, "gift", 1000, "gifts", 0, 10, "exact", [Split(20, 1000, false)], None, 10);
            && Expenses.PairBalance([e], [], 10, 20) == 1000
            && UserViewOf([e], [], 10, 20).netBalance == 0
  {
    var e := Expense(1, "gift", 1000, "gifts", 0, 10, "exact", [Split(20, 1000, false)], None, 10);
    assert Expenses.PaidPersonally([e], 10) == [e];
    assert Expenses.PaidPersonally([e], 20) == [];
    assert e.splits[0].userId == 20;
    assert Expenses.ExpensesBetween([e], 10, 20) == [e];
    assert FindUnpaid(e.splits, 20) == Some(Split(20, 1000, false));
    SumByAppend([], e, Expenses.ExpenseTermOf(10, 20));
    assert Expenses.SettlementsBetween([], 10, 20) == [];
    assert !InSplits(e.splits, 10);
    assert ViewExpenses([e], 10, 20) == [e];
    assert ViewSettlements([], 10, 20) == [];
    SumByAppend([], e, OwedTermOf(10, 20));
    SumByAppend([], e, OwesTermOf(10, 20));
  }

  // ---------------------------------------------------------------- group view

  /** A property name of the `balances` object, `String(m)` of a member: a bare id
      is its own key, every object member shares one key, and null is "null". */
  datatype Key = IdKey(id: UserId) | ObjectKey | NullKey

  function KeyOf(m: Member): Key {
    match m
    case Bare(u) => IdKey(u)
    case Ref(_) => ObjectKey
    case Doc(_) => ObjectKey
    case Null => NullKey
  }

  /** `members.some((m) => m.userId === me)`: a bare id has no `userId`, and reading
      it from null throws before any later member is looked at. */
  function SomeUserIdIs(members: seq<Member>, me: UserId): (r: Result<bool>)
    ensures r == Ok(false) <==> Ref(me) !in members && Null !in members
    ensures r == Ok(true) ==> Ref(me) in members
    ensures r.Err? ==> r.error == TypeError && Null in members
  {
    if members == [] then Ok(false)
    else if members[0] == Null then Err(TypeError)
    else if members[0] == Ref(me) then Ok(true)
    else SomeUserIdIs(members[1..], me)
  }

  datatype Tally = Tally(owed: int, owing: int)

  /** `Object.keys(balances)` after initialisation: the keys of the members other than
      the caller, in order of first occurrence. */
  function TallyKeys(members: seq<Member>, me: UserId): (r: seq<Key>)
    ensures Distinct(r)
    ensures forall m :: m in members && m != Bare(me) ==> KeyOf(m) in r
    ensures forall k :: k in r ==> exists m :: m in members && m != Bare(me) && KeyOf(m) == k
    ensures IdKey(me) !in r
  {
    if members == [] then []
    else
      var init := members[..|members| - 1];
      var last := members[|members| - 1];
      var ks := TallyKeys(init, me);
      assert forall m :: m in members ==> m in init || m == last;
      if last == Bare(me) then ks else AddToSet(ks, KeyOf(last))
  }

  function InitTallies(keys: seq<Key>): (b: map<Key, Tally>)
    ensures b.Keys == set k | k in keys
  {
    map k | k in keys :: Tally(0, 0)
  }

  function AddOwed(b: map<Key, Tally>, k: Key, x: int): map<Key, Tally>
    requires k in b
  {
    b[k := Tally(b[k].owed + x, b[k].owing)]
  }

  function AddOwing(b: map<Key, Tally>, k: Key, x: int): map<Key, Tally>
    requires k in b
  {
    b[k := Tally(b[k].owed, b[k].owing + x)]
  }

  /** I paid: each other user's unpaid split raises what they owe me; a split user
      without a tally makes the property access throw. */
  function ApplyMySplits(b: map<Key, Tally>, splits: seq<Split>, me: UserId): (r: Result<map<Key, Tally>>)
    ensures r.Ok? ==> r.value.Keys == b.Keys
    ensures r.Err? ==> r.error == TypeError
  {
    if splits == [] then Ok(b)
    else
      match ApplyMySplits(b, splits[..|splits| - 1], me)
      case Err(e) => Err(e)
      case Ok(b1) =>
        var s := splits[|splits| - 1];
        if s.userId != me && !s.hasPaid then
          if IdKey(s.userId) in b1 then Ok(AddOwed(b1, IdKey(s.userId), s.amount)) else Err(TypeError)
        else Ok(b1)
  }

  /** One group expense: my paying raises the others' tallies; otherwise, if the payer
      has a tally, my first unpaid split raises what I owe them. */
  function ApplyGroupExpense(b: map<Key, Tally>, e: Expense, me: UserId): (r: Result<map<Key, Tally>>)
    ensures r.Ok? ==> r.value.Keys == b.Keys
    ensures r.Err? ==> r.error == TypeError
  {
    if e.paidBy == me then ApplyMySplits(b, e.splits, me)
    else if IdKey(e.paidBy) in b then
      match FindUnpaid(e.splits, me)
      case Some(s) => Ok(AddOwing(b, IdKey(e.paidBy), s.amount))
      case None => Ok(b)
    else Ok(b)
  }

  function ApplyGroupExpenses(b: map<Key, Tally>, es: seq<Expense>, me: UserId): (r: Result<map<Key, Tally>>)
    ensures r.Ok? ==> r.value.Keys == b.Keys
    ensures r.Err? ==> r.error == TypeError
  {
    if es == [] then Ok(b)
    else
      match ApplyGroupExpenses(b, es[..|es| - 1], me)
      case Err(e) => Err(e)
      case Ok(b1) => ApplyGroupExpense(b1, es[|es| - 1], me)
  }

  /** One group settlement: paying a member lowers what I owe them, being paid by one
      lowers what they owe me, both floored at 0. */
  function ApplyGroupSettlement(b: map<Key, Tally>, st: Settlement, me: UserId): (r: map<Key, Tally>)
    ensures r.Keys == b.Keys
  {
    var b1 := if st.paidBy == me && IdKey(st.paidTo) in b
              then b[IdKey(st.paidTo) := Tally(b[IdKey(st.paidTo)].owed, Max0(b[IdKey(st.paidTo)].owing - st.amount))]
              else b;
    if st.paidTo == me && IdKey(st.paidBy) in b1
    then b1[IdKey(st.paidBy) := Tally(Max0(b1[IdKey(st.paidBy)].owed - st.amount), b1[IdKey(st.paidBy)].owing)]
    else b1
  }

  function ApplyGroupSettlements(b: map<Key, Tally>, ss: seq<Settlement>, me: UserId): (r: map<Key, Tally>)
    ensures r.Keys == b.Keys
  {
    if ss == [] then b else ApplyGroupSettlement(ApplyGroupSettlements(b, ss[..|ss| - 1], me), ss[|ss| - 1], me)
  }

  datatype TallyRow = TallyRow(key: Key, youAreOwed: int, youOwe: int, netBalance: int)

  /** The group branch's result (member names and images are left out). */
  datatype GroupView = GroupView(id: GroupId, name: string, description: string, balances: seq<TallyRow>)

  function Rows(keys: seq<Key>, b: map<Key, Tally>): (r: seq<TallyRow>)
    requires forall k :: k in keys ==> k in b
    ensures |r| == |keys|
    ensures forall i :: 0 <= i < |r| ==> r[i].key == keys[i] && r[i].netBalance == r[i].youAreOwed - r[i].youOwe
  {
    seq(|keys|, i requires 0 <= i < |keys| => TallyRow(keys[i], b[keys[i]].owed, b[keys[i]].owing,
                                                       b[keys[i]].owed - b[keys[i]].owing))
  }

  /** `Promise.all(Object.keys(balances).map((id) => ctx.db.get(id)))`: "[object Object]"
      and "null" are not document ids, so reading either throws; an id that names no
      user reads null, which only loses the row's name. */
  function LookupRows(rows: seq<TallyRow>): (r: Result<seq<TallyRow>>)
    ensures r.Ok? <==> forall i :: 0 <= i < |rows| ==> rows[i].key.IdKey?
    ensures r.Ok? ==> r.value == rows
    ensures r.Err? ==> r.error == InvalidId
  {
    if exists i :: 0 <= i < |rows| && !rows[i].key.IdKey? then Err(InvalidId) else Ok(rows)
  }

  /** The group branch up to the tallies' rows, before the member lookup. */
  function GroupRowsOf(me: UserId, gid: GroupId, groups: seq<Group>, expenses: seq<Expense>,
                       settlements: seq<Settlement>): Result<GroupView> {
    match FindGroup(groups, gid)
    case None => Err(GroupNotFound)
    case Some(g) =>
      match SomeUserIdIs(g.members, me)
      case Err(e) => Err(e)
      case Ok(isMember) =>
        if !isMember then Err(NotGroupMember)
        else
          var keys := TallyKeys(g.members, me);
          match ApplyGroupExpenses(InitTallies(keys), Filter(expenses, InGroup(gid)), me)
          case Err(e) => Err(e)
          case Ok(b) =>
            var b1 := ApplyGroupSettlements(b, Filter(settlements, SettledInGroup(gid)), me);
            Ok(GroupView(g.id, g.name, g.description, Rows(keys, b1)))
  }

  /** The group branch: the rows once every key has been looked up. */
  function GroupViewOf(me: UserId, gid: GroupId, groups: seq<Group>, expenses: seq<Expense>,
                       settlements: seq<Settlement>): Result<GroupView> {
    match GroupRowsOf(me, gid, groups, expenses, settlements)
    case Err(e) => Err(e)
    case Ok(v) =>
      match LookupRows(v.balances)
      case Err(e) => Err(e)
      case Ok(_) => Ok(v)
  }

  /** As written the group branch never returns a view: the membership test passes only
      through a `{userId: me}` member, whose key "[object Object]" the member lookup
      rejects. */
  lemma GroupViewNeverReturns(me: UserId, gid: GroupId, groups: seq<Group>,
                              expenses: seq<Expense>, settlements: seq<Settlement>)
    ensures GroupViewOf(me, gid, groups, expenses, settlements).Err?
    ensures GroupRowsOf(me, gid, groups, expenses, settlements).Ok? ==>
              GroupViewOf(me, gid, groups, expenses, settlements) == Err(InvalidId)
  {
    var v := GroupRowsOf(me, gid, groups, expenses, settlements);
    if v.Ok? {
      var g := FindGroup(groups, gid).value;
      assert SomeUserIdIs(g.members, me) == Ok(true);
      var keys := TallyKeys(g.members, me);
      assert KeyOf(Ref(me)) in keys;
      var k :| 0 <= k < |keys| && keys[k] == ObjectKey;
      assert v.value.balances[k].key == ObjectKey;
    }
  }

  lemma {:induction false} MySplitsErrSticks(b: map<Key, Tally>, splits: seq<Split>, t: int, me: UserId)
    requires 0 <= t <= |splits|
    requires ApplyMySplits(b, splits[..t], me).Err?
    ensures ApplyMySplits(b, splits, me).Err?
  {
    if t < |splits| {
      var n := |splits| - 1;
      assert splits[..n][..t] == splits[..t];
      MySplitsErrSticks(b, splits[..n], t, me);
    } else {
      assert splits[..t] == splits;
    }
  }

  lemma {:induction false} GroupExpensesErrSticks(b: map<Key, Tally>, es: seq<Expense>, j: int, me: UserId)
    requires 0 <= j <= |es|
    requires ApplyGroupExpenses(b, es[..j], me).Err?
    ensures ApplyGroupExpenses(b, es, me).Err?
  {
    if j < |es| {
      var n := |es| - 1;
      assert es[..n][..j] == es[..j];
      GroupExpensesErrSticks(b, es[..n], j, me);
    } else {
      assert es[..j] == es;
    }
  }

  /** `group.members.forEach`: a zero tally for every member other than the caller. */
  lemma TallyKeysStep(members: seq<Member>, i: int, me: UserId)
    requires 0 <= i < |members|
    ensures TallyKeys(members[..i + 1], me)
            == if members[i] == Bare(me) then TallyKeys(members[..i], me)
               else AddToSet(TallyKeys(members[..i], me), KeyOf(members[i]))
  {
    assert members[..i + 1][..i] == members[..i];
  }

  /** A fresh zero tally for one more key. */
  lemma InitTalliesAdd(keys: seq<Key>, k: Key)
    ensures InitTallies(keys)[k := Tally(0, 0)] == InitTallies(AddToSet(keys, k))
  {
  }

  method InitBalances(members: seq<Member>, me: UserId) returns (balances: map<Key, Tally>, keys: seq<Key>)
    ensures keys == TallyKeys(members, me)
    ensures balances == InitTallies(keys)
  {
    balances, keys := map[], [];
    var i := 0;
    while i < |members|
      invariant 0 <= i <= |members|
      invariant keys == TallyKeys(members[..i], me)
      invariant balances == InitTallies(keys)
    {
      var m := members[i];
      TallyKeysStep(members, i, me);
      if m != Bare(me) {
        InitTalliesAdd(keys, KeyOf(m));
        balances := balances[KeyOf(m) := Tally(0, 0)];
        keys := AddToSet(keys, KeyOf(m));
      }
      i := i + 1;
    }
    assert members[..i] == members;
  }

  /** `exp.splits.forEach` for an expense I paid. */
  method ApplyMySplitsLoop(b: map<Key, Tally>, splits: seq<Split>, me: UserId)
    returns (r: Result<map<Key, Tally>>)
    ensures r == ApplyMySplits(b, splits, me)
  {
    var balances := b;
    var t := 0;
    while t < |splits|
      invariant 0 <= t <= |splits|
      invariant ApplyMySplits(b, splits[..t], me) == Ok(balances)
    {
      var split := splits[t];
      assert splits[..t + 1][..t] == splits[..t];
      if split.userId != me && !split.hasPaid {
        if IdKey(split.userId) !in balances {
          MySplitsErrSticks(b, splits, t + 1, me);
          return Err(TypeError);
        }
        balances := AddOwed(balances, IdKey(split.userId), split.amount);
      }
      t := t + 1;
    }
    assert splits[..t] == splits;
    r := Ok(balances);
  }

  /** The loop over the group's expenses. */
  method ApplyGroupExpensesLoop(b: map<Key, Tally>, es: seq<Expense>, me: UserId)
    returns (r: Result<map<Key, Tally>>)
    ensures r == ApplyGroupExpenses(b, es, me)
  {
    var balances := b;
    var j := 0;
    while j < |es|
      invariant 0 <= j <= |es|
      invariant ApplyGroupExpenses(b, es[..j], me) == Ok(balances)
    {
      var e := es[j];
      assert es[..j + 1][..j] == es[..j];
      if e.paidBy == me {
        var next := ApplyMySplitsLoop(balances, e.splits, me);
        if next.Err? {
          GroupExpensesErrSticks(b, es, j + 1, me);
          return Err(TypeError);
        }
        balances := next.value;
      } else if IdKey(e.paidBy) in balances {
        var split := FindUnpaid(e.splits, me);
        if split.Some? {
          balances := AddOwing(balances, IdKey(e.paidBy), split.value.amount);
        }
      }
      j := j + 1;
    }
    assert es[..j] == es;
    r := Ok(balances);
  }

  /** The loop over the group's settlements. */
  method ApplyGroupSettlementsLoop(b: map<Key, Tally>, ss: seq<Settlement>, me: UserId)
    returns (balances: map<Key, Tally>)
    ensures balances == ApplyGroupSettlements(b, ss, me)
  {
    balances := b;
    var k := 0;
    while k < |ss|
      invariant 0 <= k <= |ss|
      invariant balances == ApplyGroupSettlements(b, ss[..k], me)
    {
      var st := ss[k];
      assert ss[..k + 1][..k] == ss[..k];
      if st.paidBy == me && IdKey(st.paidTo) in balances {
        var t := balances[IdKey(st.paidTo)];
        balances := balances[IdKey(st.paidTo) := Tally(t.owed, Max0(t.owing - st.amount))];
      }
      if st.paidTo == me && IdKey(st.paidBy) in balances {
        var t := balances[IdKey(st.paidBy)];
        balances := balances[IdKey(st.paidBy) := Tally(Max0(t.owed - st.amount), t.owing)];
      }
      k := k + 1;
    }
    assert ss[..k] == ss;
  }

  /** The group branch. */
  method GroupTallies(me: UserId, gid: GroupId, groups: seq<Group>, expenses: seq<Expense>,
                      settlements: seq<Settlement>) returns (r: Result<GroupView>)
    ensures r == GroupViewOf(me, gid, groups, expenses, settlements)
  {
    var found := FindGroup(groups, gid);
    if found.None? {
      return Err(GroupNotFound);
    }
    var group := found.value;
    var isMember := SomeUserIdIs(group.members, me);
    if isMember.Err? {
      return Err(isMember.error);
    }
    if !isMember.value {
      return Err(NotGroupMember);
    }
    var balances, keys := InitBalances(group.members, me);
    var applied := ApplyGroupExpensesLoop(balances, Filter(expenses, InGroup(gid)), me);
    if applied.Err? {
      return Err(applied.error);
    }
    var settled := ApplyGroupSettlementsLoop(applied.value, Filter(settlements, SettledInGroup(gid)), me);
    var rows := Rows(keys, settled);
    var looked := LookupRows(rows);
    if looked.Err? {
      return Err(looked.error);
    }
    r := Ok(GroupView(group.id, group.name, group.description, rows));
  }

  predicate NonNegative(b: map<Key, Tally>) {
    forall k :: k in b ==> b[k].owed >= 0 && b[k].owing >= 0
  }

  lemma {:induction false} MySplitsKeepNonNegative(b: map<Key, Tally>, splits: seq<Split>, me: UserId)
    requires NonNegative(b)
    requires forall s :: s in splits ==> s.amount >= 0
    ensures ApplyMySplits(b, splits, me).Ok? ==> NonNegative(ApplyMySplits(b, splits, me).value)
  {
    if splits != [] {
      var n := |splits| - 1;
      assert forall s :: s in splits[..n] ==> s in splits;
      MySplitsKeepNonNegative(b, splits[..n], me);
    }
  }

  lemma {:induction false} GroupExpensesKeepNonNegative(b: map<Key, Tally>, es: seq<Expense>, me: UserId)
    requires NonNegative(b)
    requires forall e :: e in es ==> forall s :: s in e.splits ==> s.amount >= 0
    ensures ApplyGroupExpenses(b, es, me).Ok? ==> NonNegative(ApplyGroupExpenses(b, es, me).value)
  {
    if es != [] {
      var n := |es| - 1;
      assert forall e :: e in es[..n] ==> e in es;
      GroupExpensesKeepNonNegative(b, es[..n], me);
      var prev := ApplyGroupExpenses(b, es[..n], me);
      if prev.Ok? {
        var e := es[n];
        if e.paidBy == me {
          MySplitsKeepNonNegative(prev.value, e.splits, me);
        } else {
          var s := FindUnpaid(e.splits, me);
          assert s.Some? ==> s.value in e.splits;
        }
      }
    }
  }

  lemma {:induction false} GroupSettlementsKeepNonNegative(b: map<Key, Tally>, ss: seq<Settlement>, me: UserId)
    requires NonNegative(b)
    ensures NonNegative(ApplyGroupSettlements(b, ss, me))
  {
    if ss != [] {
      GroupSettlementsKeepNonNegative(b, ss[..|ss| - 1], me);
    }
  }

  /** Every tally of the group's rows stays non-negative when the group's split amounts
      are: expenses only add, and settlements are floored at 0. */
  lemma {:induction false} GroupRowsNonNegative(me: UserId, gid: GroupId, groups: seq<Group>,
                                                expenses: seq<Expense>, settlements: seq<Settlement>)
    requires forall e :: e in expenses && e.groupId == Some(gid) ==> forall s :: s in e.splits ==> s.amount >= 0
    ensures var r := GroupRowsOf(me, gid, groups, expenses, settlements);
            r.Ok? ==> forall i :: 0 <= i < |r.value.balances| ==>
                        r.value.balances[i].youAreOwed >= 0 && r.value.balances[i].youOwe >= 0
  {
    var r := GroupRowsOf(me, gid, groups, expenses, settlements);
    if r.Ok? {
      var g := FindGroup(groups, gid).value;
      var keys := TallyKeys(g.members, me);
      var es := Filter(expenses, InGroup(gid));
      GroupExpensesKeepNonNegative(InitTallies(keys), es, me);
      var b := ApplyGroupExpenses(InitTallies(keys), es, me).value;
      GroupSettlementsKeepNonNegative(b, Filter(settlements, SettledInGroup(gid)), me);
    }
  }

  /** The caller has no row; the rows are one per distinct key of the other members. */
  lemma GroupRowsExcludeCaller(me: UserId, gid: GroupId, groups: seq<Group>,
                               expenses: seq<Expense>, settlements: seq<Settlement>)
    ensures var r := GroupRowsOf(me, gid, groups, expenses, settlements);
            r.Ok? ==> && (forall i :: 0 <= i < |r.value.balances| ==> r.value.balances[i].key != IdKey(me))
                      && (forall i, j :: 0 <= i < j < |r.value.balances| ==> r.value.balances[i].key != r.value.balances[j].key)
                      && (forall m :: m in FindGroup(groups, gid).value.members && m != Bare(me) ==>
                            exists i :: 0 <= i < |r.value.balances| && r.value.balances[i].key == KeyOf(m))
  {
  }

  /** Groups as createGroup stores them hold bare ids, which have no `userId` field, so
      the membership test of the group view fails for every caller. */
  lemma BareGroupsRejectGroupView(me: UserId, gid: GroupId, groups: seq<Group>,
                                  expenses: seq<Expense>, settlements: seq<Settlement>)
    requires FindGroup(groups, gid).Some?
    requires forall m :: m in FindGroup(groups, gid).value.members ==> m.Bare?
    ensures GroupViewOf(me, gid, groups, expenses, settlements) == Err(NotGroupMember)
  {
    var g := FindGroup(groups, gid).value;
    assert Ref(me) !in g.members && Null !in g.members;
  }

  // ---------------------------------------------------------------- getSettlementData

  datatype SettlementData = UserData(user: UserView) | GroupData(group: GroupView)

  /** Dispatch on `entityType`; `users` stands for the ids of the users table. */
  method GetSettlementData(me: UserId, entityType: string, entityId: int, users: seq<UserId>,
                           groups: seq<Group>, expenses: seq<Expense>, settlements: seq<Settlement>)
    returns (r: Result<SettlementData>)
    ensures entityType == "user" && entityId !in users ==> r == Err(UserNotFound)
    ensures entityType == "user" && entityId in users ==>
              r == Ok(UserData(UserViewOf(expenses, settlements, me, entityId)))
    ensures entityType == "group" ==>
              r == match GroupViewOf(me, entityId, groups, expenses, settlements)
                   case Ok(v) => Ok(GroupData(v))
                   case Err(e) => Err(e)
    ensures entityType == "group" ==> r.Err?
    ensures entityType != "user" && entityType != "group" ==> r == Err(InvalidEntityType)
  {
    if entityType == "user" {
      if entityId !in users {
        return Err(UserNotFound);
      }
      var v := UserBalance(me, entityId, expenses, settlements);
      return Ok(UserData(v));
    } else if entityType == "group" {
      var g := GroupTallies(me, entityId, groups, expenses, settlements);
      GroupViewNeverReturns(me, entityId, groups, expenses, settlements);
      match g
      case Err(e) => return Err(e);
      case Ok(v) => return Ok(GroupData(v));
    }
    r := Err(InvalidEntityType);
  }
}
