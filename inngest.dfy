/** The reminder job's query (convex/inngest.js, getUsersWithOutstandingDebts): for
    every user, a ledger of what they owe each counterparty across the expenses and
    settlements outside groups, and the list of users who owe somebody something. */
module Inngest {
  import opened Seqs
  import opened Records

  /** One value of the per-user `Map`, with its key: a positive amount is what the user
      owes the counterparty, a negative one what the counterparty owes the user. */
  datatype Entry = Entry(counterparty: UserId, amount: int, since: int)

  /** The `Map` in iteration order: a new key goes last, `set` on a present key keeps
      its place and `delete` takes the entry out. */
  type Ledger = seq<Entry>

  predicate UniqueKeys(l: Ledger) {
    forall i, j :: 0 <= i < j < |l| ==> l[i].counterparty != l[j].counterparty
  }

  /** The position of `c`'s entry, or -1 when `c` has none. */
  function IndexOf(l: Ledger, c: UserId): (k: int)
    ensures -1 <= k < |l|
    ensures k >= 0 ==> l[k].counterparty == c
    ensures k < 0 ==> forall i :: 0 <= i < |l| ==> l[i].counterparty != c
  {
    if l == [] then -1
    else if l[|l| - 1].counterparty == c then |l| - 1
    else IndexOf(l[..|l| - 1], c)
  }

  /** `ledger.get(c)` */
  function Get(l: Ledger, c: UserId): (r: Option<Entry>)
    ensures r.None? <==> forall x :: x in l ==> x.counterparty != c
    ensures r.Some? ==> r.value in l && r.value.counterparty == c
  {
    var k := IndexOf(l, c);
    if k >= 0 then Some(l[k]) else None
  }

  /** `Math.min` */
  function Min(a: int, b: int): int {
    if a <= b then a else b
  }

  /** `entry = ledger.get(c) ?? {amount: 0, since: date}`, `entry.amount += delta`,
      `entry.since = Math.min(entry.since, date)`, `ledger.set(c, entry)`. */
  function Charge(l: Ledger, c: UserId, delta: int, date: int): (r: Ledger)
    ensures UniqueKeys(l) ==> UniqueKeys(r)
  {
    var k := IndexOf(l, c);
    if k >= 0 then l[k := Entry(c, l[k].amount + delta, Min(l[k].since, date))]
    else l + [Entry(c, delta, date)]
  }

  /** The loop over the splits of an expense the user paid: every unpaid split of
      somebody else is owed to the user. */
  function ChargeSplits(l: Ledger, payer: UserId, splits: seq<Split>, date: int): (r: Ledger)
    ensures UniqueKeys(l) ==> UniqueKeys(r)
  {
    if splits == [] then l
    else ChargeSplit(ChargeSplits(l, payer, splits[..|splits| - 1], date), payer, splits[|splits| - 1], date)
  }

  /** One split of that loop. */
  function ChargeSplit(l: Ledger, payer: UserId, s: Split, date: int): (r: Ledger)
    ensures UniqueKeys(l) ==> UniqueKeys(r)
  {
    if s.userId == payer || s.hasPaid then l else Charge(l, s.userId, -s.amount, date)
  }

  /** One expense in `u`'s ledger: paid by somebody else, `u`'s first unpaid split is owed
      to the payer; paid by `u`, the loop over the splits. */
  function ChargeExpense(l: Ledger, u: UserId, e: Expense): (r: Ledger)
    ensures UniqueKeys(l) ==> UniqueKeys(r)
  {
    if e.paidBy != u then
      match FindUnpaid(e.splits, u)
      case None => l
      case Some(s) => Charge(l, e.paidBy, s.amount, e.date)
    else ChargeSplits(l, e.paidBy, e.splits, e.date)
  }

  /** `u`'s ledger after the loop over the expenses. */
  function ExpensesLedger(u: UserId, es: seq<Expense>): (r: Ledger)
    ensures UniqueKeys(r)
  {
    if es == [] then [] else ChargeExpense(ExpensesLedger(u, es[..|es| - 1]), u, es[|es| - 1])
  }

  /** A settlement meeting an entry: `entry.amount += delta`, then `ledger.delete(c)` when
      the amount is exactly 0 and `ledger.set(c, entry)` otherwise. Without an entry
      nothing happens. */
  function Adjust(l: Ledger, c: UserId, delta: int): (r: Ledger)
    ensures UniqueKeys(l) ==> UniqueKeys(r)
  {
    var k := IndexOf(l, c);
    if k < 0 then l
    else if l[k].amount + delta == 0 then l[..k] + l[k + 1..]
    else l[k := Entry(c, l[k].amount + delta, l[k].since)]
  }

  /** Paying lowers what `u` owes the receiver; receiving raises what `u` owes the payer. */
  function SettlementStep(l: Ledger, u: UserId, s: Settlement): Ledger {
    if s.paidBy == u then Adjust(l, s.paidTo, -s.amount)
    else if s.paidTo == u then Adjust(l, s.paidBy, s.amount)
    else l
  }

  function SettledLedger(l: Ledger, u: UserId, ss: seq<Settlement>): (r: Ledger)
    ensures UniqueKeys(l) ==> UniqueKeys(r)
  {
    if ss == [] then l else SettlementStep(SettledLedger(l, u, ss[..|ss| - 1]), u, ss[|ss| - 1])
  }

  /** The two index queries `by_group` with `groupId` undefined. */
  function Personal(): Expense -> bool {
    (e: Expense) => e.groupId.None?
  }

  function PersonalSettlement(): Settlement -> bool {
    (s: Settlement) => s.groupId.None?
  }

  /** `u`'s ledger once the expenses and then the settlements are booked. */
  function UserLedger(u: UserId, es: seq<Expense>, ss: seq<Settlement>): Ledger {
    SettledLedger(ExpensesLedger(u, es), u, ss)
  }

  /** `{userId, amount, since}` of one debt (the counterparty's name is left out). */
  datatype Debt = Debt(userId: UserId, amount: int, since: int)

  /** `{id, debts}` of one user who owes something (name and email are left out). */
  datatype Debtor = Debtor(id: UserId, debts: seq<Debt>)

  predicate OwesSomebody(l: Ledger) {
    exists x :: x in l && x.amount > 0
  }

  /** Every counterparty the user owes something names a user. */
  predicate Resolvable(l: Ledger, users: seq<UserId>) {
    forall x :: x in l && x.amount > 0 ==> x.counterparty in users
  }

  /** The entries with a positive amount, in the ledger's order. */
  function Debts(l: Ledger): (r: seq<Debt>)
    ensures forall d :: d in r <==> d.amount > 0 && Entry(d.userId, d.amount, d.since) in l
    ensures |r| > 0 <==> OwesSomebody(l)
  {
    if l == [] then []
    else
      var x := l[|l| - 1];
      Debts(l[..|l| - 1]) + if x.amount > 0 then [Debt(x.counterparty, x.amount, x.since)] else []
  }

  /** The loop that pushes `debts`: `getUser(counterId).name` reads null, and throws, for a
      counterparty that names no user. */
  function DebtsOf(l: Ledger, users: seq<UserId>): (r: Result<seq<Debt>>)
    ensures r.Ok? <==> Resolvable(l, users)
    ensures r.Err? ==> r.error == TypeError
  {
    if exists x :: x in l && x.amount > 0 && x.counterparty !in users then Err(TypeError) else Ok(Debts(l))
  }

  /** The outer loop over `rest`, a prefix of the users table. */
  function DebtorsAmong(rest: seq<UserId>, users: seq<UserId>, es: seq<Expense>, ss: seq<Settlement>)
    : (r: Result<seq<Debtor>>)
    ensures r.Ok? <==> forall u :: u in rest ==> Resolvable(UserLedger(u, es, ss), users)
    ensures r.Err? ==> r.error == TypeError
    ensures r.Ok? ==> forall dr :: dr in r.value ==>
      dr.id in rest && |dr.debts| > 0 && dr.debts == Debts(UserLedger(dr.id, es, ss))
    ensures r.Ok? ==> forall u :: u in rest ==>
      ((exists dr :: dr in r.value && dr.id == u) <==> OwesSomebody(UserLedger(u, es, ss)))
  {
    if rest == [] then Ok([])
    else
      var u := rest[|rest| - 1];
      var before := DebtorsAmong(rest[..|rest| - 1], users, es, ss);
      assert forall v :: v in rest <==> v in rest[..|rest| - 1] || v == u;
      match before
      case Err(e) => Err(e)
      case Ok(acc) =>
        match DebtsOf(UserLedger(u, es, ss), users)
        case Err(e) => Err(e)
        case Ok(debts) => Ok(if |debts| > 0 then acc + [Debtor(u, debts)] else acc)
  }

  /** getUsersWithOutstandingDebts over the users, expenses and settlements tables. */
  function OutstandingDebts(users: seq<UserId>, expenses: seq<Expense>, settlements: seq<Settlement>)
    : Result<seq<Debtor>>
  {
    DebtorsAmong(users, users, Filter(expenses, Personal()), Filter(settlements, PersonalSettlement()))
  }

  // ---------------------------------------------------------------------------
  // The handler

  /** `ledger.get(c) ?? {…}`, the two updates of the entry and `ledger.set(c, entry)`. */
  method ChargeEntry(ledger0: Ledger, c: UserId, delta: int, date: int) returns (ledger: Ledger)
    ensures ledger == Charge(ledger0, c, delta, date)
  {
    var k := IndexOf(ledger0, c);
    var entry := if k >= 0 then ledger0[k] else Entry(c, 0, date);
    entry := Entry(c, entry.amount + delta, Min(entry.since, date));
    ledger := if k >= 0 then ledger0[k := entry] else ledger0 + [entry];
  }

  /** The inner loop over the splits of an expense the user paid. */
  method ChargeSplitsLoop(ledger0: Ledger, payer: UserId, splits: seq<Split>, date: int) returns (ledger: Ledger)
    ensures ledger == ChargeSplits(ledger0, payer, splits, date)
  {
    ledger := ledger0;
    var j := 0;
    while j < |splits|
      invariant 0 <= j <= |splits|
      invariant ledger == ChargeSplits(ledger0, payer, splits[..j], date)
    {
      var s := splits[j];
      assert splits[..j + 1][..j] == splits[..j];
      if !(s.userId == payer || s.hasPaid) {
        ledger := ChargeEntry(ledger, s.userId, -s.amount, date);
      }
      j := j + 1;
    }
    assert splits[..j] == splits;
  }

  lemma ExpensesLedgerStep(u: UserId, es: seq<Expense>, i: int)
    requires 0 <= i < |es|
    ensures ExpensesLedger(u, es[..i + 1]) == ChargeExpense(ExpensesLedger(u, es[..i]), u, es[i])
  {
    assert es[..i + 1][..i] == es[..i];
  }

  /** The loop over the expenses for one user. */
  method BookExpenses(u: UserId, expenses: seq<Expense>) returns (ledger: Ledger)
    ensures ledger == ExpensesLedger(u, expenses)
  {
    ledger := [];
    var i := 0;
    while i < |expenses|
      invariant 0 <= i <= |expenses|
      invariant ledger == ExpensesLedger(u, expenses[..i])
    {
      var exp := expenses[i];
      ExpensesLedgerStep(u, expenses, i);
      var payer := exp.paidBy;
      if payer != u {
        var userSplit := FindUnpaid(exp.splits, u);
        if userSplit.Some? {
          ledger := ChargeEntry(ledger, payer, userSplit.value.amount, exp.date);
        }
      } else {
        ledger := ChargeSplitsLoop(ledger, payer, exp.splits, exp.date);
      }
      i := i + 1;
    }
    assert expenses[..i] == expenses;
  }

  /** A settlement meeting the entry of `c`: the amount changes, and an entry that
      reaches exactly 0 is deleted. */
  method AdjustEntry(ledger0: Ledger, c: UserId, delta: int) returns (ledger: Ledger)
    ensures ledger == Adjust(ledger0, c, delta)
  {
    ledger := ledger0;
    var k := IndexOf(ledger, c);
    if k >= 0 {
      var amount := ledger[k].amount + delta;
      if amount == 0 {
        ledger := ledger[..k] + ledger[k + 1..];
      } else {
        ledger := ledger[k := Entry(c, amount, ledger[k].since)];
      }
    }
  }

  lemma SettledLedgerStep(l: Ledger, u: UserId, ss: seq<Settlement>, i: int)
    requires 0 <= i < |ss|
    ensures SettledLedger(l, u, ss[..i + 1]) == SettlementStep(SettledLedger(l, u, ss[..i]), u, ss[i])
  {
    assert ss[..i + 1][..i] == ss[..i];
  }

  /** The loop over the settlements for one user. */
  method SettleLedger(u: UserId, settlements: seq<Settlement>, ledger0: Ledger) returns (ledger: Ledger)
    ensures ledger == SettledLedger(ledger0, u, settlements)
  {
    ledger := ledger0;
    var i := 0;
    while i < |settlements|
      invariant 0 <= i <= |settlements|
      invariant ledger == SettledLedger(ledger0, u, settlements[..i])
    {
      var s := settlements[i];
      SettledLedgerStep(ledger0, u, settlements, i);
      if s.paidBy == u {
        ledger := AdjustEntry(ledger, s.paidTo, -s.amount);
      } else if s.paidTo == u {
        ledger := AdjustEntry(ledger, s.paidBy, s.amount);
      }
      i := i + 1;
    }
    assert settlements[..i] == settlements;
  }

  /** The loop over the ledger that pushes `debts`. */
  method CollectDebts(ledger: Ledger, users: seq<UserId>) returns (r: Result<seq<Debt>>)
    ensures r == DebtsOf(ledger, users)
  {
    var debts := [];
    var i := 0;
    while i < |ledger|
      invariant 0 <= i <= |ledger|
      invariant debts == Debts(ledger[..i])
      invariant forall x :: x in ledger[..i] && x.amount > 0 ==> x.counterparty in users
    {
      var x := ledger[i];
      if x.amount > 0 && x.counterparty !in users {
        assert ledger[i] in ledger;
        return Err(TypeError);
      }
      DebtsStep(ledger, users, i);
      if x.amount > 0 {
        debts := debts + [Debt(x.counterparty, x.amount, x.since)];
      }
      i := i + 1;
    }
    assert ledger[..i] == ledger;
    r := Ok(debts);
  }

  lemma DebtsStep(l: Ledger, users: seq<UserId>, i: int)
    requires 0 <= i < |l|
    requires forall x :: x in l[..i] && x.amount > 0 ==> x.counterparty in users
    requires l[i].amount > 0 ==> l[i].counterparty in users
    ensures Debts(l[..i + 1])
         == Debts(l[..i]) + if l[i].amount > 0 then [Debt(l[i].counterparty, l[i].amount, l[i].since)] else []
    ensures forall x :: x in l[..i + 1] && x.amount > 0 ==> x.counterparty in users
  {
    assert l[..i + 1][..i] == l[..i];
    assert l[..i + 1] == l[..i] + [l[i]];
  }

  /** One user whose debts cannot be resolved makes the whole query throw. */
  lemma DebtorsAmongErr(rest: seq<UserId>, users: seq<UserId>, es: seq<Expense>, ss: seq<Settlement>, u: UserId)
    requires u in rest && !Resolvable(UserLedger(u, es, ss), users)
    ensures DebtorsAmong(rest, users, es, ss) == Err(TypeError)
  {
  }

  /** getUsersWithOutstandingDebts */
  method GetUsersWithOutstandingDebts(users: seq<UserId>, expenses: seq<Expense>, settlements: seq<Settlement>)
    returns (r: Result<seq<Debtor>>)
    ensures r == OutstandingDebts(users, expenses, settlements)
  {
    var es := Filter(expenses, Personal());
    var ss := Filter(settlements, PersonalSettlement());
    var result := [];
    var i := 0;
    while i < |users|
      invariant 0 <= i <= |users|
      invariant DebtorsAmong(users[..i], users, es, ss) == Ok(result)
    {
      var u := users[i];
      assert users[..i + 1][..i] == users[..i];
      var ledger := BookExpenses(u, es);
      ledger := SettleLedger(u, ss, ledger);
      var debts := CollectDebts(ledger, users);
      assert ledger == UserLedger(u, es, ss);
      if debts.Err? {
        DebtorsAmongErr(users, users, es, ss, u);
        return Err(TypeError);
      }
      assert DebtorsAmong(users[..i + 1], users, es, ss)
             == Ok(if |debts.value| > 0 then result + [Debtor(u, debts.value)] else result);
      if |debts.value| > 0 {
        result := result + [Debtor(u, debts.value)];
      }
      i := i + 1;
    }
    assert users[..i] == users;
    r := Ok(result);
  }

  // ---------------------------------------------------------------------------
  // What the ledger holds

  /** With one entry per key, the entry found for a key is the one stored under it. */
  lemma GetUnique(l: Ledger, x: Entry)
    requires UniqueKeys(l) && x in l
    ensures Get(l, x.counterparty) == Some(x)
  {
  }

  /** `u`'s entry for `c` after one more amount `delta` dated `date` when `hit` holds:
      a new entry, or the old one with the amount added and the earlier date. */
  function Accrue(x: Option<Entry>, c: UserId, delta: int, date: int, hit: bool): Option<Entry> {
    if !hit then x
    else match x
      case None => Some(Entry(c, delta, date))
      case Some(y) => Some(Entry(c, y.amount + delta, Min(y.since, date)))
  }

  lemma ChargeGet(l: Ledger, c0: UserId, delta: int, date: int, c: UserId)
    requires UniqueKeys(l)
    ensures Get(Charge(l, c0, delta, date), c) == if c == c0 then Accrue(Get(l, c), c, delta, date, true) else Get(l, c)
  {
    var r := Charge(l, c0, delta, date);
    var k := IndexOf(l, c0);
    if c == c0 {
      if k >= 0 {
        GetUnique(l, l[k]);
        GetUnique(r, r[k]);
      } else {
        GetUnique(r, r[|l|]);
      }
    } else {
      match Get(l, c)
      case None =>
        assert forall x :: x in r ==> x in l || x.counterparty == c0;
      case Some(x) =>
        var i :| 0 <= i < |l| && l[i] == x;
        assert r[i] == x;
        GetUnique(r, x);
    }
  }

  /** The share of `c`'s unpaid splits. */
  function UnpaidOf(c: UserId): Split -> int {
    (s: Split) => if s.userId == c && !s.hasPaid then s.amount else 0
  }

  predicate HasUnpaid(splits: seq<Split>, c: UserId) {
    exists s :: s in splits && s.userId == c && !s.hasPaid
  }

  /** Two amounts for the same entry on the same date accrue as their sum. */
  lemma AccrueTwice(x: Option<Entry>, c: UserId, d1: int, d2: int, date: int, hit: bool)
    requires !hit ==> d1 == 0
    ensures Accrue(Accrue(x, c, d1, date, hit), c, d2, date, true) == Accrue(x, c, d1 + d2, date, true)
  {
  }

  /** One split of the payer's loop, seen from the entry of `c`: `d` is what the split
      leaves unpaid for `c`, `hit` whether it is an unpaid split of `c`'s. */
  lemma ChargeSplitGet(l1: Ledger, payer: UserId, s: Split, date: int, c: UserId,
                       x: Option<Entry>, sum0: int, hit0: bool)
    requires UniqueKeys(l1)
    requires Get(l1, c) == Accrue(x, c, -sum0, date, hit0)
    requires hit0 ==> c != payer
    requires !hit0 && c != payer ==> sum0 == 0
    ensures Get(ChargeSplit(l1, payer, s, date), c)
         == Accrue(x, c, -(sum0 + UnpaidOf(c)(s)), date, hit0 || (c != payer && s.userId == c && !s.hasPaid))
  {
    var d := UnpaidOf(c)(s);
    var hit := s.userId == c && !s.hasPaid;
    assert d == if hit then s.amount else 0;
    if s.userId == payer || s.hasPaid {
      SkippedSplitGet(l1, payer, s, date, c, x, sum0, hit0, d, hit);
    } else {
      ChargedSplitGet(l1, s, date, c, x, sum0, hit0, d, hit);
    }
  }

  lemma SkippedSplitGet(l1: Ledger, payer: UserId, s: Split, date: int, c: UserId,
                        x: Option<Entry>, sum0: int, hit0: bool, d: int, hit: bool)
    requires s.userId == payer || s.hasPaid
    requires hit == (s.userId == c && !s.hasPaid) && d == (if hit then s.amount else 0)
    requires Get(l1, c) == Accrue(x, c, -sum0, date, hit0)
    requires hit0 ==> c != payer
    ensures Get(ChargeSplit(l1, payer, s, date), c)
         == Accrue(x, c, -(sum0 + d), date, hit0 || (c != payer && hit))
  {
    assert ChargeSplit(l1, payer, s, date) == l1;
  }

  lemma ChargedSplitGet(l1: Ledger, s: Split, date: int, c: UserId,
                        x: Option<Entry>, sum0: int, hit0: bool, d: int, hit: bool)
    requires UniqueKeys(l1)
    requires hit == (s.userId == c) && d == (if hit then s.amount else 0)
    requires Get(l1, c) == Accrue(x, c, -sum0, date, hit0)
    requires !hit0 && hit ==> sum0 == 0
    ensures Get(Charge(l1, s.userId, -s.amount, date), c) == Accrue(x, c, -(sum0 + d), date, hit0 || hit)
  {
    ChargeGet(l1, s.userId, -s.amount, date, c);
    if hit {
      AccrueTwice(x, c, -sum0, -s.amount, date, hit0);
    }
  }

  lemma UnpaidSnoc(splits: seq<Split>, c: UserId)
    requires splits != []
    ensures var n := |splits| - 1;
      && SumBy(splits, UnpaidOf(c)) == SumBy(splits[..n], UnpaidOf(c)) + UnpaidOf(c)(splits[n])
      && (HasUnpaid(splits, c) <==> HasUnpaid(splits[..n], c) || (splits[n].userId == c && !splits[n].hasPaid))
  {
    var n := |splits| - 1;
    assert splits == splits[..n] + [splits[n]];
  }

  lemma {:induction false} ChargeSplitsGet(l: Ledger, payer: UserId, splits: seq<Split>, date: int, c: UserId)
    requires UniqueKeys(l)
    ensures Get(ChargeSplits(l, payer, splits, date), c)
      == Accrue(Get(l, c), c, -SumBy(splits, UnpaidOf(c)), date, c != payer && HasUnpaid(splits, c))
  {
    if splits != [] {
      var n := |splits| - 1;
      var s := splits[n];
      var init := splits[..n];
      ChargeSplitsGet(l, payer, init, date, c);
      NoUnpaidSum(init, c, payer);
      UnpaidSnoc(splits, c);
      var l1 := ChargeSplits(l, payer, init, date);
      var sum0 := SumBy(init, UnpaidOf(c));
      var hit0 := c != payer && HasUnpaid(init, c);
      ChargeSplitGet(l1, payer, s, date, c, Get(l, c), sum0, hit0);
      assert ChargeSplits(l, payer, splits, date) == ChargeSplit(l1, payer, s, date);
      assert -SumBy(splits, UnpaidOf(c)) == -(sum0 + UnpaidOf(c)(s));
      assert (c != payer && HasUnpaid(splits, c)) == (hit0 || (c != payer && s.userId == c && !s.hasPaid));
    }
  }

  lemma NoUnpaidSum(splits: seq<Split>, c: UserId, payer: UserId)
    ensures !HasUnpaid(splits, c) ==> SumBy(splits, UnpaidOf(c)) == 0
  {
    if !HasUnpaid(splits, c) {
      SumByZero(splits, UnpaidOf(c));
    }
  }

  /** What one expense adds to `u`'s entry for `c`: `u`'s first unpaid share when `c` paid,
      less the unpaid shares of `c` when `u` paid. */
  function ChargeOf(u: UserId, c: UserId): Expense -> int {
    (e: Expense) =>
      if e.paidBy != u then (if e.paidBy == c then UnpaidShare(e.splits, u) else 0)
      else if c == u then 0
      else -SumBy(e.splits, UnpaidOf(c))
  }

  /** The expense bears on `u`'s entry for `c`. */
  predicate Contributes(u: UserId, c: UserId, e: Expense) {
    if e.paidBy != u then e.paidBy == c && FindUnpaid(e.splits, u).Some?
    else c != u && HasUnpaid(e.splits, c)
  }

  lemma ExpenseGet(l: Ledger, u: UserId, e: Expense, c: UserId)
    requires UniqueKeys(l)
    ensures Get(ChargeExpense(l, u, e), c) == Accrue(Get(l, c), c, ChargeOf(u, c)(e), e.date, Contributes(u, c, e))
  {
    if e.paidBy != u {
      match FindUnpaid(e.splits, u)
      case None =>
      case Some(s) => ChargeGet(l, e.paidBy, s.amount, e.date, c);
    } else {
      ChargeSplitsGet(l, e.paidBy, e.splits, e.date, c);
      NoUnpaidSum(e.splits, c, e.paidBy);
    }
  }

  /** The entry for `c` built from the expenses, one `Accrue` per expense. */
  function Accrued(u: UserId, c: UserId, es: seq<Expense>): Option<Entry> {
    if es == [] then None
    else
      var e := es[|es| - 1];
      Accrue(Accrued(u, c, es[..|es| - 1]), c, ChargeOf(u, c)(e), e.date, Contributes(u, c, e))
  }

  lemma {:induction false} ExpensesLedgerGet(u: UserId, es: seq<Expense>, c: UserId)
    ensures Get(ExpensesLedger(u, es), c) == Accrued(u, c, es)
  {
    if es != [] {
      var n := |es| - 1;
      ExpensesLedgerGet(u, es[..n], c);
      ExpenseGet(ExpensesLedger(u, es[..n]), u, es[n], c);
    }
  }

  /** An expense that does not bear on the entry adds nothing to it. */
  lemma NonContributing(u: UserId, c: UserId, e: Expense)
    requires !Contributes(u, c, e)
    ensures ChargeOf(u, c)(e) == 0
  {
    if e.paidBy == u && c != u {
      NoUnpaidSum(e.splits, c, u);
    }
  }

  lemma {:induction false} AccruedClosedForm(u: UserId, c: UserId, es: seq<Expense>)
    ensures Accrued(u, c, es).None? <==> forall e :: e in es ==> !Contributes(u, c, e)
    ensures Accrued(u, c, es).Some? ==>
      var x := Accrued(u, c, es).value;
      && x.counterparty == c
      && x.amount == SumBy(es, ChargeOf(u, c))
      && (forall e :: e in es && Contributes(u, c, e) ==> x.since <= e.date)
      && exists e :: e in es && Contributes(u, c, e) && x.since == e.date
  {
    if es != [] {
      var n := |es| - 1;
      var e := es[n];
      AccruedClosedForm(u, c, es[..n]);
      assert es == es[..n] + [e];
      assert forall d :: d in es <==> d in es[..n] || d == e;
      if !Contributes(u, c, e) {
        NonContributing(u, c, e);
      }
      if Accrued(u, c, es[..n]).None? {
        SumByZero(es[..n], ChargeOf(u, c)) by {
          forall d | d in es[..n]
            ensures ChargeOf(u, c)(d) == 0
          {
            NonContributing(u, c, d);
          }
        }
      }
    }
  }

  /** After the expenses, `u` has an entry for `c` exactly when some expense bears on it;
      its amount is `c`'s side of the unpaid splits, paid splits counting nothing, and
      its `since` is the earliest date among those expenses. */
  lemma ExpensesLedgerClosedForm(u: UserId, es: seq<Expense>, c: UserId)
    ensures Get(ExpensesLedger(u, es), c).None? <==> forall e :: e in es ==> !Contributes(u, c, e)
    ensures Get(ExpensesLedger(u, es), c).Some? ==>
      var x := Get(ExpensesLedger(u, es), c).value;
      && x.amount == SumBy(es, ChargeOf(u, c))
      && (forall e :: e in es && Contributes(u, c, e) ==> x.since <= e.date)
      && exists e :: e in es && Contributes(u, c, e) && x.since == e.date
  {
    ExpensesLedgerGet(u, es, c);
    AccruedClosedForm(u, c, es);
  }

  /** The entry an amount change leaves: gone at exactly 0, otherwise moved by `delta`
      with its date kept. */
  function Shift(x: Option<Entry>, delta: int): Option<Entry> {
    match x
    case None => None
    case Some(y) => if y.amount + delta == 0 then None else Some(Entry(y.counterparty, y.amount + delta, y.since))
  }

  lemma AdjustGet(l: Ledger, c0: UserId, delta: int, c: UserId)
    requires UniqueKeys(l)
    ensures Get(Adjust(l, c0, delta), c) == if c == c0 then Shift(Get(l, c), delta) else Get(l, c)
  {
    var k := IndexOf(l, c0);
    if k >= 0 {
      GetUnique(l, l[k]);
      if l[k].amount + delta == 0 {
        DeleteGet(l, k, c);
      } else {
        UpdateGet(l, k, Entry(c0, l[k].amount + delta, l[k].since), c);
      }
    }
  }

  /** `ledger.delete` of the entry at `k` hides its key and no other. */
  lemma DeleteGet(l: Ledger, k: int, c: UserId)
    requires UniqueKeys(l) && 0 <= k < |l|
    ensures Get(l[..k] + l[k + 1..], c) == if c == l[k].counterparty then None else Get(l, c)
  {
    var r := l[..k] + l[k + 1..];
    assert forall i :: 0 <= i < |r| ==> r[i] == l[if i < k then i else i + 1];
    assert UniqueKeys(r);
    if c != l[k].counterparty {
      match Get(l, c)
      case None =>
      case Some(x) =>
        var i :| 0 <= i < |l| && l[i] == x;
        assert r[if i < k then i else i - 1] == x;
        GetUnique(r, x);
    }
  }

  /** `ledger.set` on the key at `k` replaces its entry and no other. */
  lemma UpdateGet(l: Ledger, k: int, e: Entry, c: UserId)
    requires UniqueKeys(l) && 0 <= k < |l| && e.counterparty == l[k].counterparty
    ensures Get(l[k := e], c) == if c == e.counterparty then Some(e) else Get(l, c)
  {
    var r := l[k := e];
    assert UniqueKeys(r);
    if c == e.counterparty {
      GetUnique(r, r[k]);
    } else {
      match Get(l, c)
      case None =>
      case Some(x) =>
        var i :| 0 <= i < |l| && l[i] == x;
        assert r[i] == x;
        GetUnique(r, x);
    }
  }

  /** A settlement only moves an entry that exists: paying lowers what `u` owes the
      receiver, receiving raises what `u` owes the payer, an entry that reaches exactly 0
      is deleted, and every other entry stays. */
  lemma SettlementEffect(l: Ledger, u: UserId, s: Settlement, c: UserId)
    requires UniqueKeys(l)
    ensures Get(SettlementStep(l, u, s), c) ==
      if s.paidBy == u && c == s.paidTo then Shift(Get(l, c), -s.amount)
      else if s.paidBy != u && s.paidTo == u && c == s.paidBy then Shift(Get(l, c), s.amount)
      else Get(l, c)
  {
    if s.paidBy == u {
      AdjustGet(l, s.paidTo, -s.amount, c);
    } else if s.paidTo == u {
      AdjustGet(l, s.paidBy, s.amount, c);
    }
  }

  /** Settlements never add an entry and never change its date. */
  lemma {:induction false} SettlementsOnlyExisting(l: Ledger, u: UserId, ss: seq<Settlement>, c: UserId)
    requires UniqueKeys(l)
    ensures Get(SettledLedger(l, u, ss), c).Some? ==>
      Get(l, c).Some? && Get(SettledLedger(l, u, ss), c).value.since == Get(l, c).value.since
  {
    if ss != [] {
      var n := |ss| - 1;
      SettlementsOnlyExisting(l, u, ss[..n], c);
      SettlementEffect(SettledLedger(l, u, ss[..n]), u, ss[n], c);
    }
  }

  /** A user never appears as a counterparty in their own ledger. */
  lemma NoSelfEntry(u: UserId, es: seq<Expense>, ss: seq<Settlement>)
    ensures forall x :: x in UserLedger(u, es, ss) ==> x.counterparty != u
  {
    ExpensesLedgerClosedForm(u, es, u);
    SettlementsOnlyExisting(ExpensesLedger(u, es), u, ss, u);
  }

  /** Every listed user owes somebody, every emitted debt is positive and owed to
      somebody else, and a user owing nothing is not listed. */
  lemma DebtorsOwe(users: seq<UserId>, expenses: seq<Expense>, settlements: seq<Settlement>)
    requires OutstandingDebts(users, expenses, settlements).Ok?
    ensures forall dr :: dr in OutstandingDebts(users, expenses, settlements).value ==>
      && dr.id in users && |dr.debts| > 0
      && forall d :: d in dr.debts ==> d.amount > 0 && d.userId != dr.id
  {
    var es := Filter(expenses, Personal());
    var ss := Filter(settlements, PersonalSettlement());
    forall dr | dr in OutstandingDebts(users, expenses, settlements).value
      ensures forall d :: d in dr.debts ==> d.userId != dr.id
    {
      NoSelfEntry(dr.id, es, ss);
    }
  }
}
