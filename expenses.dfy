/** convex/expenses.js: the balance between the caller and one other user over
    their personal (group-less) expenses and settlements, and the createExpense and
    deleteExpense mutations. */
module Expenses {
  import opened Seqs
  import opened Records
  import Categories

  /** Involvement as this file decides it: the payer, or present in the splits. */
  predicate Involved(e: Expense, u: UserId) {
    e.paidBy == u || InSplits(e.splits, u)
  }

  /** Index query `by_user_and_group` with `paidBy = u` and no group. */
  function PaidPersonallyBy(u: UserId): Expense -> bool {
    (e: Expense) => e.paidBy == u && e.groupId.None?
  }

  function PaidPersonally(expenses: seq<Expense>, u: UserId): seq<Expense> {
    Filter(expenses, PaidPersonallyBy(u))
  }

  function BothInvolved(me: UserId, other: UserId): Expense -> bool {
    (e: Expense) => Involved(e, me) && Involved(e, other)
  }

  /** `filteredExpenses`: the expenses either user paid, mine first, kept when both are involved. */
  function ExpensesBetween(expenses: seq<Expense>, me: UserId, other: UserId): seq<Expense> {
    Filter(PaidPersonally(expenses, me) + PaidPersonally(expenses, other), BothInvolved(me, other))
  }

  function SettledBetween(me: UserId, other: UserId): Settlement -> bool {
    (s: Settlement) => s.groupId.None? && ((s.paidBy == me && s.paidTo == other) || (s.paidBy == other && s.paidTo == me))
  }

  /** The personal settlements from either user to the other, in table order. */
  function SettlementsBetween(settlements: seq<Settlement>, me: UserId, other: UserId): seq<Settlement> {
    Filter(settlements, SettledBetween(me, other))
  }

  /** What one expense adds to "they owe me": their unpaid share when I paid, minus
      my unpaid share otherwise. */
  function ExpenseTerm(e: Expense, me: UserId, other: UserId): int {
    if e.paidBy == me then UnpaidShare(e.splits, other) else -UnpaidShare(e.splits, me)
  }

  function ExpenseTermOf(me: UserId, other: UserId): Expense -> int {
    (e: Expense) => ExpenseTerm(e, me, other)
  }

  function ExpenseBalance(es: seq<Expense>, me: UserId, other: UserId): int {
    SumBy(es, ExpenseTermOf(me, other))
  }

  /** A settlement I paid raises the balance, one paid to me lowers it. */
  function SettlementTerm(s: Settlement, me: UserId): int {
    if s.paidBy == me then s.amount else -s.amount
  }

  function SettlementTermOf(me: UserId): Settlement -> int {
    (s: Settlement) => SettlementTerm(s, me)
  }

  function SettlementBalance(ss: seq<Settlement>, me: UserId): int {
    SumBy(ss, SettlementTermOf(me))
  }

  /** The balance of getExpenseBetweenUsers: positive when the other user owes me. */
  function PairBalance(expenses: seq<Expense>, settlements: seq<Settlement>, me: UserId, other: UserId): int {
    ExpenseBalance(ExpensesBetween(expenses, me, other), me, other)
      + SettlementBalance(SettlementsBetween(settlements, me, other), me)
  }

  /** The result of getExpenseBetweenUsers (the other user's profile fields are left out). */
  datatype Between = Between(filteredExpenses: seq<Expense>, settlements: seq<Settlement>, balance: int)

  method GetExpenseBetweenUsers(me: UserId, other: UserId, users: seq<UserId>,
                                expenses: seq<Expense>, settlements: seq<Settlement>)
    returns (r: Result<Between>)
    ensures me == other ==> r == Err(SameUser)
    ensures me != other && other !in users ==> r == Err(UserNotFound)
    ensures r.Ok? <==> me != other && other in users
    ensures r.Ok? ==> r.value == Between(ExpensesBetween(expenses, me, other),
                                         SettlementsBetween(settlements, me, other),
                                         PairBalance(expenses, settlements, me, other))
    ensures r.Ok? ==> forall e :: e in r.value.filteredExpenses <==>
                        e in expenses && e.groupId.None? && (e.paidBy == me || e.paidBy == other)
                        && Involved(e, me) && Involved(e, other)
    ensures r.Ok? ==> forall s :: s in r.value.settlements <==>
                        s in settlements && s.groupId.None?
                        && ((s.paidBy == me && s.paidTo == other) || (s.paidBy == other && s.paidTo == me))
  {
    if me == other {
      return Err(SameUser);
    }
    var filtered := ExpensesBetween(expenses, me, other);
    var between := SettlementsBetween(settlements, me, other);
    var balance := 0;
    var i := 0;
    while i < |filtered|
      invariant 0 <= i <= |filtered|
      invariant balance == ExpenseBalance(filtered[..i], me, other)
    {
      var e := filtered[i];
      if e.paidBy == me {
        var split := FindUnpaid(e.splits, other);
        if split.Some? {
          balance := balance + split.value.amount;
        }
      } else {
        var split := FindUnpaid(e.splits, me);
        if split.Some? {
          balance := balance - split.value.amount;
        }
      }
      SumBySnoc(filtered, i, ExpenseTermOf(me, other));
      i := i + 1;
    }
    assert filtered[..i] == filtered;
    var expensePart := balance;
    var k := 0;
    while k < |between|
      invariant 0 <= k <= |between|
      invariant balance == expensePart + SettlementBalance(between[..k], me)
    {
      var s := between[k];
      if s.paidBy == me {
        balance := balance + s.amount;
      } else {
        balance := balance - s.amount;
      }
      SumBySnoc(between, k, SettlementTermOf(me));
      k := k + 1;
    }
    assert between[..k] == between;
    if other !in users {
      return Err(UserNotFound);
    }
    r := Ok(Between(filtered, between, balance));
  }

  /** Seen from the other side, an expense paid by one of the two users counts with
      the opposite sign. */
  lemma ExpenseTermFlip(e: Expense, a: UserId, b: UserId)
    requires a != b && (e.paidBy == a || e.paidBy == b)
    ensures ExpenseTerm(e, a, b) == -ExpenseTerm(e, b, a)
  {
  }

  /** Antisymmetry: the balance A sees against B is the negation of the balance B
      sees against A, because the filters and the sign rules are symmetric. */
  lemma {:induction false} PairBalanceAntisymmetric(expenses: seq<Expense>, settlements: seq<Settlement>, a: UserId, b: UserId)
    requires a != b
    ensures PairBalance(expenses, settlements, a, b) == -PairBalance(expenses, settlements, b, a)
  {
    var pa, pb := PaidPersonally(expenses, a), PaidPersonally(expenses, b);
    FilterConcat(pa, pb, BothInvolved(a, b));
    FilterSame(pb + pa, BothInvolved(b, a), BothInvolved(a, b));
    FilterConcat(pb, pa, BothInvolved(a, b));
    var fa, fb := Filter(pa, BothInvolved(a, b)), Filter(pb, BothInvolved(a, b));
    assert ExpensesBetween(expenses, a, b) == fa + fb;
    assert ExpensesBetween(expenses, b, a) == fb + fa;
    SumByConcat(fa, fb, ExpenseTermOf(a, b));
    SumByConcat(fb, fa, ExpenseTermOf(b, a));
    forall e | e in fa + fb
      ensures ExpenseTermOf(b, a)(e) == -ExpenseTermOf(a, b)(e)
    {
      ExpenseTermFlip(e, a, b);
    }
    SumByNegate(fa + fb, ExpenseTermOf(a, b), ExpenseTermOf(b, a));
    SumByConcat(fa, fb, ExpenseTermOf(b, a));
    FilterSame(settlements, SettledBetween(b, a), SettledBetween(a, b));
    SumByNegate(SettlementsBetween(settlements, a, b), SettlementTermOf(a), SettlementTermOf(b));
  }

  /** The involvement filter never changes the balance: an expense in which the
      other side is not involved contributes nothing anyway. */
  lemma {:induction false} InvolvementFilterImmaterial(es: seq<Expense>, me: UserId, other: UserId)
    requires forall e :: e in es ==> e.paidBy == me || e.paidBy == other
    ensures ExpenseBalance(Filter(es, BothInvolved(me, other)), me, other) == ExpenseBalance(es, me, other)
  {
    forall e | e in es
      ensures ExpenseTermOf(me, other)(e)
              == if BothInvolved(me, other)(e) then ExpenseTermOf(me, other)(e) else 0
    {
      if !BothInvolved(me, other)(e) {
        if e.paidBy == me {
          assert FindUnpaid(e.splits, other).None?;
        } else {
          assert FindUnpaid(e.splits, me).None?;
        }
      }
    }
    SumByFilter(es, BothInvolved(me, other), ExpenseTermOf(me, other), ExpenseTermOf(me, other));
  }

  // ---------------------------------------------------------------- createExpense

  datatype ExpenseArgs = ExpenseArgs(
    description: string,
    amount: int,
    category: Option<string>,
    date: int,
    paidBy: UserId,
    splitType: string,
    splits: seq<Split>,
    groupId: Option<GroupId>)

  /** The rounding tolerance of 0.01 currency units, in cents. */
  const Tolerance: int := 1

  /** `splits.reduce((sum, split) => sum + split.amount, 0)` */
  function SplitTotal(splits: seq<Split>): int {
    if splits == [] then 0 else SplitTotal(splits[..|splits| - 1]) + splits[|splits| - 1].amount
  }

  function Abs(x: int): int {
    if x < 0 then -x else x
  }

  /** The guards of createExpense, in order; `None` lets the insert happen. */
  function CheckExpense(caller: UserId, args: ExpenseArgs, groups: seq<Group>): (r: Option<Error>)
    ensures r.None? <==>
              (args.groupId.Some? ==> FindGroup(groups, args.groupId.value).Some?
                                      && HasBareMember(FindGroup(groups, args.groupId.value).value, caller))
              && Abs(SplitTotal(args.splits) - args.amount) <= Tolerance
    ensures args.groupId.Some? && FindGroup(groups, args.groupId.value).None? ==> r == Some(GroupNotFound)
    ensures r == Some(NotGroupMember) <==>
              args.groupId.Some? && FindGroup(groups, args.groupId.value).Some?
              && !HasBareMember(FindGroup(groups, args.groupId.value).value, caller)
    ensures r == Some(SplitSumMismatch) ==> Abs(SplitTotal(args.splits) - args.amount) > Tolerance
    ensures r.Some? ==> r.value in {GroupNotFound, NotGroupMember, SplitSumMismatch}
  {
    if args.groupId.Some? && FindGroup(groups, args.groupId.value).None? then Some(GroupNotFound)
    else if args.groupId.Some? && !HasBareMember(FindGroup(groups, args.groupId.value).value, caller) then
      Some(NotGroupMember)
    else if Abs(SplitTotal(args.splits) - args.amount) > Tolerance then Some(SplitSumMismatch)
    else None
  }

  /** `args.category || "Other"`: a missing or empty category is stored as "Other". */
  function CategoryOrDefault(category: Option<string>): string {
    if category.None? || category.value == "" then "Other" else category.value
  }

  /** The stored category name "Other" is not a table key, and the lookup falls back
      to the same "other" entry that it names. */
  lemma DefaultCategoryResolves()
    ensures Categories.GetCategoryById(CategoryOrDefault(None)) == Categories.OtherCategory
    ensures Categories.GetCategoryById(CategoryOrDefault(None)).name == CategoryOrDefault(None)
  {
    var key := CategoryOrDefault(None);
    assert key == "Other";
    forall i | 0 <= i < |Categories.ExpenseCategories|
      ensures Categories.ExpenseCategories[i].0 != key
    {
      var k := Categories.ExpenseCategories[i].0;
      assert |k| > 0 && k[0] != 'O';
    }
    assert !Categories.IsKey(key);
  }

  function NewExpense(id: ExpenseId, caller: UserId, args: ExpenseArgs): Expense {
    Expense(id, args.description, args.amount, CategoryOrDefault(args.category), args.date,
            args.paidBy, args.splitType, args.splits, args.groupId, caller)
  }

  method CreateExpense(db: Database, caller: UserId, args: ExpenseArgs) returns (r: Result<ExpenseId>)
    requires db.Valid()
    modifies db
    ensures db.Valid()
    ensures r.Ok? <==> CheckExpense(caller, args, old(db.groups)).None?
    ensures r.Err? ==> Some(r.error) == CheckExpense(caller, args, old(db.groups)) && unchanged(db)
    ensures r.Ok? ==> r.value == old(db.nextId)
                      && (forall e :: e in old(db.expenses) ==> e.id != r.value)
                      && db.expenses == old(db.expenses) + [NewExpense(r.value, caller, args)]
                      && db.settlements == old(db.settlements) && db.groups == old(db.groups)
                      && db.users == old(db.users)
    ensures r.Ok? ==> db.expenses[|db.expenses| - 1].createdBy == caller
                      && db.expenses[|db.expenses| - 1].category == CategoryOrDefault(args.category)
  {
    var check := CheckExpense(caller, args, db.groups);
    if check.Some? {
      return Err(check.value);
    }
    var id := db.nextId;
    db.expenses := db.expenses + [NewExpense(id, caller, args)];
    db.nextId := db.nextId + 1;
    r := Ok(id);
  }

  // ---------------------------------------------------------------- deleteExpense

  /** The guards of deleteExpense: the expense exists, and the caller created or paid it. */
  function CheckDelete(caller: UserId, expenses: seq<Expense>, id: ExpenseId): (r: Option<Error>)
    ensures r.None? <==> exists e :: e in expenses && e.id == id && (e.createdBy == caller || e.paidBy == caller)
                                     && e == FindExpense(expenses, id).value
    ensures r == Some(ExpenseNotFound) <==> forall e :: e in expenses ==> e.id != id
    ensures r.Some? ==> r.value in {ExpenseNotFound, NoDeletePermission}
  {
    match FindExpense(expenses, id)
    case None => Some(ExpenseNotFound)
    case Some(e) => if e.createdBy != caller && e.paidBy != caller then Some(NoDeletePermission) else None
  }

  function IdIsNot(id: ExpenseId): Expense -> bool {
    (e: Expense) => e.id != id
  }

  /** `ctx.db.delete(id)` on the expenses table. */
  function RemoveExpense(expenses: seq<Expense>, id: ExpenseId): seq<Expense> {
    Filter(expenses, IdIsNot(id))
  }

  /** With distinct ids, deleting by id removes exactly the one expense and keeps the
      order of the others. */
  lemma {:induction false} RemoveExpenseExactlyOne(expenses: seq<Expense>, k: int)
    requires 0 <= k < |expenses|
    requires forall i, j :: 0 <= i < j < |expenses| ==> expenses[i].id != expenses[j].id
    ensures RemoveExpense(expenses, expenses[k].id) == expenses[..k] + expenses[k + 1..]
  {
    var n := |expenses| - 1;
    var id := expenses[k].id;
    var init := expenses[..n];
    if k == n {
      FilterAll(init, IdIsNot(id));
      assert expenses[k + 1..] == [];
    } else {
      RemoveExpenseExactlyOne(init, k);
      assert init[..k] == expenses[..k];
      assert init[k + 1..] + [expenses[n]] == expenses[k + 1..];
    }
  }

  /** Deleting one expense keeps the table's ids below the counter and distinct, and
      shortens the table by one. */
  lemma {:induction false} RemoveKeepsIds(expenses: seq<Expense>, id: ExpenseId, nextId: int)
    requires forall i :: 0 <= i < |expenses| ==> expenses[i].id < nextId
    requires forall i, j :: 0 <= i < j < |expenses| ==> expenses[i].id != expenses[j].id
    requires exists e :: e in expenses && e.id == id
    ensures var r := RemoveExpense(expenses, id);
            && |r| == |expenses| - 1
            && (forall i :: 0 <= i < |r| ==> r[i].id < nextId)
            && (forall i, j :: 0 <= i < j < |r| ==> r[i].id != r[j].id)
  {
    var k :| 0 <= k < |expenses| && expenses[k].id == id;
    RemoveExpenseExactlyOne(expenses, k);
    var r := RemoveExpense(expenses, id);
    var front, back := expenses[..k], expenses[k + 1..];
    assert r == front + back;
    forall i | 0 <= i < |r|
      ensures r[i] == expenses[if i < k then i else i + 1]
    {
      if i < k {
        assert r[i] == front[i];
      } else {
        assert r[i] == back[i - k];
      }
    }
    forall i, j | 0 <= i < j < |r|
      ensures r[i].id != r[j].id
    {
      var i', j' := if i < k then i else i + 1, if j < k then j else j + 1;
      assert r[i] == expenses[i'] && r[j] == expenses[j'];
    }
  }

  method DeleteExpense(db: Database, caller: UserId, id: ExpenseId) returns (r: Result<bool>)
    requires db.Valid()
    modifies db
    ensures db.Valid()
    ensures r.Ok? <==> CheckDelete(caller, old(db.expenses), id).None?
    ensures r.Ok? ==> r.value
    ensures r.Err? ==> Some(r.error) == CheckDelete(caller, old(db.expenses), id) && unchanged(db)
    ensures r.Ok? ==> db.expenses == RemoveExpense(old(db.expenses), id)
                      && |db.expenses| == |old(db.expenses)| - 1
                      && db.settlements == old(db.settlements) && db.groups == old(db.groups)
                      && db.users == old(db.users) && db.nextId == old(db.nextId)
  {
    var check := CheckDelete(caller, db.expenses, id);
    if check.Some? {
      return Err(check.value);
    }
    ghost var before := db.expenses;
    var remaining := RemoveExpense(db.expenses, id);
    RemoveKeepsIds(before, id, db.nextId);
    db.expenses := remaining;
    r := Ok(true);
  }

  // ---------------------------------------------------------------- scenarios

  /** A pays 30.00 for a meal split 15.00 / 15.00 with B, whose share is unpaid:
      B owes A 15.00; after B settles 15.00 the balance is 0. */
  lemma MealScenario()
    ensures PairBalance([Expense(1, "meal", 3000, "foodDrink", 0, 10, "equal",
                                 [Split(10, 1500, false), Split(20, 1500, false)], None, 10)],
                        [], 10, 20) == 1500
    ensures PairBalance([Expense(1, "meal", 3000, "foodDrink", 0, 10, "equal",
                                 [Split(10, 1500, false), Split(20, 1500, false)], None, 10)],
                        [Settlement(2, 1500, None, 1, 20, 10, None, None, 20)], 10, 20) == 0
  {
    var e := Expense(1, "meal", 3000, "foodDrink", 0, 10, "equal",
                     [Split(10, 1500, false), Split(20, 1500, false)], None, 10);
    assert PaidPersonally([e], 10) == [e];
    assert PaidPersonally([e], 20) == [];
    assert InSplits(e.splits, 20) by { assert e.splits[1].userId == 20; }
    assert ExpensesBetween([e], 10, 20) == [e];
    assert FindUnpaid(e.splits, 20) == Some(Split(20, 1500, false));
    var st := Settlement(2, 1500, None, 1, 20, 10, None, None, 20);
    assert SettlementsBetween([st], 10, 20) == [st];
  }

  /** An expense paid by A whose splits name only C and D leaves the pair (A, B) untouched. */
  lemma UninvolvedScenario()
    ensures PairBalance([Expense(1, "taxi", 2000, "transportation", 0, 10, "equal",
                                 [Split(30, 1000, false), Split(40, 1000, false)], None, 10)],
                        [], 10, 20) == 0
  {
    var e := Expense(1, "taxi", 2000, "transportation", 0, 10, "equal",
                     [Split(30, 1000, false), Split(40, 1000, false)], None, 10);
    assert PaidPersonally([e], 10) == [e];
    assert PaidPersonally([e], 20) == [];
    assert !InSplits(e.splits, 20);
    assert ExpensesBetween([e], 10, 20) == [];
  }
}
