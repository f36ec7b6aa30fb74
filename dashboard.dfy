/** convex/dashboard.js: the caller's personal balances with every counterparty, the
    year's total spending and its monthly buckets, and the caller's groups with a
    balance each. */
module Dashboard {
  import opened Seqs
  import opened Records
  import Expenses

  // ---------------------------------------------------------------- getUserBalances

  /** The expenses read: no group, and the caller paid or has a split. */
  function ReadForBalances(u: UserId): Expense -> bool {
    (e: Expense) => e.groupId.None? && (e.paidBy == u || InSplits(e.splits, u))
  }

  /** The settlements read: no group, and the caller is a party. */
  function SettledWith(u: UserId): Settlement -> bool {
    (s: Settlement) => s.groupId.None? && (s.paidBy == u || s.paidTo == u)
  }

  /** One update of `balanceByUser[user]`, mirrored by the same update of the global
      `youAreOwed` / `youOwe`. */
  datatype Delta = Delta(user: UserId, owed: int, youOwe: int)

  /** I paid: every other participant's split, paid or not, raises what they owe me. */
  function PayerDeltas(splits: seq<Split>, u: UserId): (r: seq<Delta>)
    ensures |r| <= |splits|
    ensures forall d :: d in r ==> d.user != u && d.youOwe == 0
  {
    if splits == [] then []
    else
      var s := splits[|splits| - 1];
      PayerDeltas(splits[..|splits| - 1], u) + (if s.userId == u then [] else [Delta(s.userId, s.amount, 0)])
  }

  /** The updates one expense makes: the payer branch, or else my first split when it
      is unpaid. */
  function ExpenseDeltas(e: Expense, u: UserId): (r: seq<Delta>)
    ensures e.paidBy == u ==> r == PayerDeltas(e.splits, u)
    ensures e.paidBy != u ==>
              (r != [] <==> FindSplit(e.splits, u).Some? && !FindSplit(e.splits, u).value.hasPaid)
    ensures e.paidBy != u && r != [] ==> r == [Delta(e.paidBy, 0, FindSplit(e.splits, u).value.amount)]
  {
    if e.paidBy == u then PayerDeltas(e.splits, u)
    else
      match FindSplit(e.splits, u)
      case Some(s) => if !s.hasPaid then [Delta(e.paidBy, 0, s.amount)] else []
      case None => []
  }

  function ExpensesDeltas(es: seq<Expense>, u: UserId): seq<Delta> {
    if es == [] then [] else ExpensesDeltas(es[..|es| - 1], u) + ExpenseDeltas(es[|es| - 1], u)
  }

  /** Paying lowers what I owe the receiver; being paid lowers what the payer owes me. */
  function SettlementDelta(s: Settlement, u: UserId): Delta {
    if s.paidBy == u then Delta(s.paidTo, 0, -s.amount) else Delta(s.paidBy, -s.amount, 0)
  }

  function SettlementsDeltas(ss: seq<Settlement>, u: UserId): seq<Delta> {
    if ss == [] then [] else SettlementsDeltas(ss[..|ss| - 1], u) + [SettlementDelta(ss[|ss| - 1], u)]
  }

  /** Every update, in the order the handler makes them. */
  function BalanceDeltas(expenses: seq<Expense>, settlements: seq<Settlement>, u: UserId): seq<Delta> {
    ExpensesDeltas(Filter(expenses, ReadForBalances(u)), u)
      + SettlementsDeltas(Filter(settlements, SettledWith(u)), u)
  }

  function DeltaOwed(): Delta -> int {
    (d: Delta) => d.owed
  }

  function DeltaYouOwe(): Delta -> int {
    (d: Delta) => d.youOwe
  }

  function DeltaNet(): Delta -> int {
    (d: Delta) => d.owed - d.youOwe
  }

  /** An entry of `balanceByUser`. */
  datatype Counterparty = Counterparty(user: UserId, owed: int, youOwe: int)

  function NetOf(): Counterparty -> int {
    (c: Counterparty) => c.owed - c.youOwe
  }

  predicate UniqueUsers(t: seq<Counterparty>) {
    forall i, j :: 0 <= i < j < |t| ==> t[i].user != t[j].user
  }

  /** The position of `x`'s entry, or -1 when `x` has none. */
  function IndexOf(t: seq<Counterparty>, x: UserId): (k: int)
    ensures -1 <= k < |t|
    ensures k >= 0 ==> t[k].user == x
    ensures k < 0 ==> forall i :: 0 <= i < |t| ==> t[i].user != x
  {
    if t == [] then -1
    else if t[|t| - 1].user == x then |t| - 1
    else IndexOf(t[..|t| - 1], x)
  }

  /** `(balanceByUser[d.user] ??= {owed: 0, youOwe: 0})` followed by the two additions:
      the entry is updated where it stands, or appended, since object keys keep their
      insertion order. */
  function Bump(t: seq<Counterparty>, d: Delta): (r: seq<Counterparty>)
    ensures UniqueUsers(t) ==> UniqueUsers(r)
  {
    var k := IndexOf(t, d.user);
    if k >= 0 then t[k := Counterparty(d.user, t[k].owed + d.owed, t[k].youOwe + d.youOwe)]
    else t + [Counterparty(d.user, d.owed, d.youOwe)]
  }

  /** `balanceByUser` after the updates `ds`, starting from `t`. */
  function Book(t: seq<Counterparty>, ds: seq<Delta>): (r: seq<Counterparty>)
    ensures UniqueUsers(t) ==> UniqueUsers(r)
  {
    if ds == [] then t else Bump(Book(t, ds[..|ds| - 1]), ds[|ds| - 1])
  }

  datatype Entry = Entry(id: UserId, amount: int)

  function AmountOf(): Entry -> int {
    (x: Entry) => x.amount
  }

  function PositiveNet(): Counterparty -> bool {
    (c: Counterparty) => c.owed - c.youOwe > 0
  }

  function NegativeNet(): Counterparty -> bool {
    (c: Counterparty) => c.owed - c.youOwe < 0
  }

  /** `{id: user, amount: Math.abs(net)}` for each entry. */
  function ToEntries(cs: seq<Counterparty>): (r: seq<Entry>)
    ensures |r| == |cs|
    ensures forall i :: 0 <= i < |cs| ==> r[i] == Entry(cs[i].user, Expenses.Abs(cs[i].owed - cs[i].youOwe))
  {
    seq(|cs|, i requires 0 <= i < |cs| => Entry(cs[i].user, Expenses.Abs(cs[i].owed - cs[i].youOwe)))
  }

  /** `youAreOwedList`: the counterparties with a positive net, in entry order. */
  function OwedList(t: seq<Counterparty>): seq<Entry> {
    ToEntries(Filter(t, PositiveNet()))
  }

  /** `youOweList`: the counterparties with a negative net, in entry order. */
  function OweList(t: seq<Counterparty>): seq<Entry> {
    ToEntries(Filter(t, NegativeNet()))
  }

  datatype UserBalances = UserBalances(youOwe: int, youAreOwed: int, totalBalance: int,
                                       youOweList: seq<Entry>, youAreOwedList: seq<Entry>)

  function UserBalancesOf(expenses: seq<Expense>, settlements: seq<Settlement>, u: UserId): UserBalances {
    var ds := BalanceDeltas(expenses, settlements, u);
    var owed := SumBy(ds, DeltaOwed());
    var owe := SumBy(ds, DeltaYouOwe());
    var t := Book([], ds);
    UserBalances(owe, owed, owed - owe, OweList(t), OwedList(t))
  }

  lemma {:induction false} BookConcat(t: seq<Counterparty>, xs: seq<Delta>, ys: seq<Delta>)
    ensures Book(t, xs + ys) == Book(Book(t, xs), ys)
  {
    if ys == [] {
      assert xs + ys == xs;
    } else {
      var n := |ys| - 1;
      assert (xs + ys)[..|xs + ys| - 1] == xs + ys[..n];
      BookConcat(t, xs, ys[..n]);
    }
  }

  /** One split of the payer branch: the tallies after it are those of one more split. */
  lemma PayerStep(splits: seq<Split>, k: int, u: UserId, t0: seq<Counterparty>, owed0: int,
                  t: seq<Counterparty>, owed: int)
    requires 0 <= k < |splits|
    requires t == Book(t0, PayerDeltas(splits[..k], u))
    requires owed == owed0 + SumBy(PayerDeltas(splits[..k], u), DeltaOwed())
    ensures var s := splits[k];
      s.userId != u ==>
        && Bump(t, Delta(s.userId, s.amount, 0)) == Book(t0, PayerDeltas(splits[..k + 1], u))
        && owed + s.amount == owed0 + SumBy(PayerDeltas(splits[..k + 1], u), DeltaOwed())
    ensures splits[k].userId == u ==>
      && t == Book(t0, PayerDeltas(splits[..k + 1], u))
      && owed == owed0 + SumBy(PayerDeltas(splits[..k + 1], u), DeltaOwed())
  {
    assert splits[..k + 1][..k] == splits[..k];
    var before := PayerDeltas(splits[..k], u);
    var s := splits[k];
    if s.userId != u {
      var d := Delta(s.userId, s.amount, 0);
      assert PayerDeltas(splits[..k + 1], u) == before + [d];
      BookAppend(t0, before, d);
      SumByAppend(before, d, DeltaOwed());
    } else {
      assert PayerDeltas(splits[..k + 1], u) == before + [];
      assert before + [] == before;
    }
  }

  /** The payer branch's inner loop over the splits. */
  method PayerLoop(splits: seq<Split>, u: UserId, t0: seq<Counterparty>, owed0: int)
    returns (t: seq<Counterparty>, owed: int)
    ensures t == Book(t0, PayerDeltas(splits, u))
    ensures owed == owed0 + SumBy(PayerDeltas(splits, u), DeltaOwed())
  {
    t, owed := t0, owed0;
    var k := 0;
    while k < |splits|
      invariant 0 <= k <= |splits|
      invariant t == Book(t0, PayerDeltas(splits[..k], u))
      invariant owed == owed0 + SumBy(PayerDeltas(splits[..k], u), DeltaOwed())
    {
      var s := splits[k];
      PayerStep(splits, k, u, t0, owed0, t, owed);
      if s.userId != u {
        owed := owed + s.amount;
        t := Bump(t, Delta(s.userId, s.amount, 0));
      }
      k := k + 1;
    }
    assert splits[..k] == splits;
  }

  /** The payer branch never touches `youOwe`. */
  lemma {:induction false} SumByNonOwing(ds: seq<Delta>)
    requires forall d :: d in ds ==> d.youOwe == 0
    ensures SumBy(ds, DeltaYouOwe()) == 0
  {
    if ds != [] {
      SumByNonOwing(ds[..|ds| - 1]);
    }
  }

  lemma BookAppend(t: seq<Counterparty>, ds: seq<Delta>, d: Delta)
    ensures Book(t, ds + [d]) == Bump(Book(t, ds), d)
  {
    assert (ds + [d])[..|ds + [d]| - 1] == ds;
  }

  /** One expense of the loop: booking its deltas after those of the expenses before
      it books those of one more expense. */
  lemma ExpenseStep(es: seq<Expense>, i: int, u: UserId, t: seq<Counterparty>, owed: int, owe: int)
    requires 0 <= i < |es|
    requires t == Book([], ExpensesDeltas(es[..i], u))
    requires owed == SumBy(ExpensesDeltas(es[..i], u), DeltaOwed())
    requires owe == SumBy(ExpensesDeltas(es[..i], u), DeltaYouOwe())
    ensures var mine, next := ExpenseDeltas(es[i], u), ExpensesDeltas(es[..i + 1], u);
      && Book(t, mine) == Book([], next)
      && owed + SumBy(mine, DeltaOwed()) == SumBy(next, DeltaOwed())
      && owe + SumBy(mine, DeltaYouOwe()) == SumBy(next, DeltaYouOwe())
  {
    assert es[..i + 1][..i] == es[..i];
    var done, mine := ExpensesDeltas(es[..i], u), ExpenseDeltas(es[i], u);
    assert ExpensesDeltas(es[..i + 1], u) == done + mine;
    BookConcat([], done, mine);
    SumByConcat(done, mine, DeltaOwed());
    SumByConcat(done, mine, DeltaYouOwe());
  }

  /** The body of the loop over the expenses: the payer's inner loop, or the user's
      own unpaid split owed to the payer. */
  method TallyExpense(e: Expense, u: UserId, t0: seq<Counterparty>, owed0: int, owe0: int)
    returns (t: seq<Counterparty>, owed: int, owe: int)
    ensures t == Book(t0, ExpenseDeltas(e, u))
    ensures owed == owed0 + SumBy(ExpenseDeltas(e, u), DeltaOwed())
    ensures owe == owe0 + SumBy(ExpenseDeltas(e, u), DeltaYouOwe())
  {
    if e.paidBy == u {
      t, owed := PayerLoop(e.splits, u, t0, owed0);
      owe := owe0;
      SumByNonOwing(PayerDeltas(e.splits, u));
    } else {
      t, owed, owe := t0, owed0, owe0;
      var userSplit := FindSplit(e.splits, u);
      if userSplit.Some? && !userSplit.value.hasPaid {
        var d := Delta(e.paidBy, 0, userSplit.value.amount);
        owe := owe0 + userSplit.value.amount;
        t := Bump(t0, d);
        assert [] + [d] == [d];
        BookAppend(t0, [], d);
        SumByAppend([], d, DeltaOwed());
        SumByAppend([], d, DeltaYouOwe());
      }
    }
  }

  /** The loop over the expenses read. */
  method ExpenseLoop(es: seq<Expense>, u: UserId)
    returns (balanceByUser: seq<Counterparty>, youAreOwed: int, youOwe: int)
    ensures balanceByUser == Book([], ExpensesDeltas(es, u))
    ensures youAreOwed == SumBy(ExpensesDeltas(es, u), DeltaOwed())
    ensures youOwe == SumBy(ExpensesDeltas(es, u), DeltaYouOwe())
  {
    youOwe, youAreOwed := 0, 0;
    balanceByUser := [];
    var i := 0;
    while i < |es|
      invariant 0 <= i <= |es|
      invariant balanceByUser == Book([], ExpensesDeltas(es[..i], u))
      invariant youAreOwed == SumBy(ExpensesDeltas(es[..i], u), DeltaOwed())
      invariant youOwe == SumBy(ExpensesDeltas(es[..i], u), DeltaYouOwe())
    {
      ExpenseStep(es, i, u, balanceByUser, youAreOwed, youOwe);
      balanceByUser, youAreOwed, youOwe := TallyExpense(es[i], u, balanceByUser, youAreOwed, youOwe);
      i := i + 1;
    }
    assert es[..i] == es;
  }

  /** One settlement of the loop: the tallies after it are those of one more settlement. */
  lemma SettlementStep(ss: seq<Settlement>, k: int, u: UserId, t0: seq<Counterparty>, owed0: int, owe0: int,
                       t: seq<Counterparty>, owed: int, owe: int)
    requires 0 <= k < |ss|
    requires t == Book(t0, SettlementsDeltas(ss[..k], u))
    requires owed == owed0 + SumBy(SettlementsDeltas(ss[..k], u), DeltaOwed())
    requires owe == owe0 + SumBy(SettlementsDeltas(ss[..k], u), DeltaYouOwe())
    ensures var d, next := SettlementDelta(ss[k], u), SettlementsDeltas(ss[..k + 1], u);
      && Bump(t, d) == Book(t0, next)
      && owed + d.owed == owed0 + SumBy(next, DeltaOwed())
      && owe + d.youOwe == owe0 + SumBy(next, DeltaYouOwe())
  {
    assert ss[..k + 1][..k] == ss[..k];
    var done := SettlementsDeltas(ss[..k], u);
    var d := SettlementDelta(ss[k], u);
    assert SettlementsDeltas(ss[..k + 1], u) == done + [d];
    BookAppend(t0, done, d);
    SumByAppend(done, d, DeltaOwed());
    SumByAppend(done, d, DeltaYouOwe());
  }

  /** The body of the loop over the settlements: paying lowers what I owe the receiver,
      being paid lowers what the payer owes me. */
  method Settle(s: Settlement, u: UserId, t0: seq<Counterparty>, owed0: int, owe0: int)
    returns (balanceByUser: seq<Counterparty>, youAreOwed: int, youOwe: int)
    ensures var d := SettlementDelta(s, u);
      balanceByUser == Bump(t0, d) && youAreOwed == owed0 + d.owed && youOwe == owe0 + d.youOwe
  {
    balanceByUser, youAreOwed, youOwe := t0, owed0, owe0;
    if s.paidBy == u {
      youOwe := youOwe - s.amount;
      balanceByUser := Bump(balanceByUser, Delta(s.paidTo, 0, -s.amount));
    } else {
      youAreOwed := youAreOwed - s.amount;
      balanceByUser := Bump(balanceByUser, Delta(s.paidBy, -s.amount, 0));
    }
  }

  /** The loop over the settlements read, continuing the tallies the expenses left. */
  method SettlementLoop(ss: seq<Settlement>, u: UserId, t0: seq<Counterparty>, owed0: int, owe0: int)
    returns (balanceByUser: seq<Counterparty>, youAreOwed: int, youOwe: int)
    ensures balanceByUser == Book(t0, SettlementsDeltas(ss, u))
    ensures youAreOwed == owed0 + SumBy(SettlementsDeltas(ss, u), DeltaOwed())
    ensures youOwe == owe0 + SumBy(SettlementsDeltas(ss, u), DeltaYouOwe())
  {
    balanceByUser, youAreOwed, youOwe := t0, owed0, owe0;
    var k := 0;
    while k < |ss|
      invariant 0 <= k <= |ss|
      invariant balanceByUser == Book(t0, SettlementsDeltas(ss[..k], u))
      invariant youAreOwed == owed0 + SumBy(SettlementsDeltas(ss[..k], u), DeltaOwed())
      invariant youOwe == owe0 + SumBy(SettlementsDeltas(ss[..k], u), DeltaYouOwe())
    {
      SettlementStep(ss, k, u, t0, owed0, owe0, balanceByUser, youAreOwed, youOwe);
      balanceByUser, youAreOwed, youOwe := Settle(ss[k], u, balanceByUser, youAreOwed, youOwe);
      k := k + 1;
    }
    assert ss[..k] == ss;
  }

  /** Every counterparty with a non-zero net names a user, so `details.name` can be read. */
  predicate NamesKnown(t: seq<Counterparty>, users: seq<UserId>) {
    forall c :: c in t && c.owed - c.youOwe != 0 ==> c.user in users
  }

  lemma NamesKnownStep(t: seq<Counterparty>, j: int, users: seq<UserId>)
    requires 0 <= j < |t| && NamesKnown(t[..j], users)
    requires t[j].owed - t[j].youOwe != 0 ==> t[j].user in users
    ensures NamesKnown(t[..j + 1], users)
  {
    assert t[..j + 1] == t[..j] + [t[j]];
  }

  /** One more counterparty extends the list its net's sign selects. */
  lemma ListStep(t: seq<Counterparty>, j: int)
    requires 0 <= j < |t|
    ensures var c := t[j]; var net := c.owed - c.youOwe; var res := Entry(c.user, Expenses.Abs(net));
      && OwedList(t[..j + 1]) == OwedList(t[..j]) + (if net > 0 then [res] else [])
      && OweList(t[..j + 1]) == OweList(t[..j]) + (if net < 0 then [res] else [])
  {
    var c := t[j];
    assert t[..j + 1][..j] == t[..j];
    var pos, neg := Filter(t[..j], PositiveNet()), Filter(t[..j], NegativeNet());
    var net := c.owed - c.youOwe;
    var res := Entry(c.user, Expenses.Abs(net));
    if net > 0 {
      assert Filter(t[..j + 1], PositiveNet()) == pos + [c];
      assert ToEntries(pos + [c]) == ToEntries(pos) + [res];
      assert Filter(t[..j + 1], NegativeNet()) == neg + [];
      assert neg + [] == neg;
    } else if net < 0 {
      assert Filter(t[..j + 1], NegativeNet()) == neg + [c];
      assert ToEntries(neg + [c]) == ToEntries(neg) + [res];
      assert Filter(t[..j + 1], PositiveNet()) == pos + [];
      assert pos + [] == pos;
    } else {
      assert Filter(t[..j + 1], PositiveNet()) == pos + [];
      assert Filter(t[..j + 1], NegativeNet()) == neg + [];
      assert pos + [] == pos && neg + [] == neg;
    }
  }

  /** `Object.entries(balanceByUser)`: zero nets are skipped, the others pushed to the
      list their sign selects; `ctx.db.get(user)` of a counterparty naming no user reads
      null, and `details.name` then throws. */
  method ListLoop(t: seq<Counterparty>, users: seq<UserId>) returns (r: Result<(seq<Entry>, seq<Entry>)>)
    ensures r.Ok? <==> NamesKnown(t, users)
    ensures r.Ok? ==> r.value == (OweList(t), OwedList(t))
    ensures r.Err? ==> r.error == TypeError
  {
    var youOweList, youAreOwedList := [], [];
    var j := 0;
    while j < |t|
      invariant 0 <= j <= |t|
      invariant youOweList == OweList(t[..j])
      invariant youAreOwedList == OwedList(t[..j])
      invariant NamesKnown(t[..j], users)
    {
      var c := t[j];
      if c.owed - c.youOwe != 0 && c.user !in users {
        assert t[j] in t;
        return Err(TypeError);
      }
      NamesKnownStep(t, j, users);
      ListStep(t, j);
      var net := c.owed - c.youOwe;
      if net > 0 {
        youAreOwedList := youAreOwedList + [Entry(c.user, Expenses.Abs(net))];
      } else if net < 0 {
        youOweList := youOweList + [Entry(c.user, Expenses.Abs(net))];
      }
      j := j + 1;
    }
    assert t[..j] == t;
    r := Ok((youOweList, youAreOwedList));
  }

  /** The two loops over the records read: the table and both tallies after every
      update. */
  method Tallies(u: UserId, expenses: seq<Expense>, settlements: seq<Settlement>)
    returns (t: seq<Counterparty>, youAreOwed: int, youOwe: int)
    ensures t == Book([], BalanceDeltas(expenses, settlements, u))
    ensures youAreOwed == SumBy(BalanceDeltas(expenses, settlements, u), DeltaOwed())
    ensures youOwe == SumBy(BalanceDeltas(expenses, settlements, u), DeltaYouOwe())
  {
    var es := Filter(expenses, ReadForBalances(u));
    t, youAreOwed, youOwe := ExpenseLoop(es, u);
    var ss := Filter(settlements, SettledWith(u));
    t, youAreOwed, youOwe := SettlementLoop(ss, u, t, youAreOwed, youOwe);
    BookConcat([], ExpensesDeltas(es, u), SettlementsDeltas(ss, u));
    SumByConcat(ExpensesDeltas(es, u), SettlementsDeltas(ss, u), DeltaOwed());
    SumByConcat(ExpensesDeltas(es, u), SettlementsDeltas(ss, u), DeltaYouOwe());
  }

  /** getUserBalances for the signed-in user `u`; `users` stands for the ids of the
      users table. */
  method GetUserBalances(u: UserId, users: seq<UserId>, expenses: seq<Expense>, settlements: seq<Settlement>)
    returns (r: Result<UserBalances>)
    ensures r.Ok? <==> NamesKnown(Book([], BalanceDeltas(expenses, settlements, u)), users)
    ensures r.Ok? ==> r.value == UserBalancesOf(expenses, settlements, u)
    ensures r.Ok? ==> r.value.totalBalance == r.value.youAreOwed - r.value.youOwe
    ensures r.Err? ==> r.error == TypeError
  {
    var t, youAreOwed, youOwe := Tallies(u, expenses, settlements);
    var lists := ListLoop(t, users);
    if lists.Err? {
      return Err(lists.error);
    }
    r := Ok(UserBalances(youOwe, youAreOwed, youAreOwed - youOwe, lists.value.0, lists.value.1));
  }

  // ---------------------------------------------------------------- properties of getUserBalances

  /** Each update moves the sum of the entries' nets by exactly its own net. */
  lemma BumpNet(t: seq<Counterparty>, d: Delta)
    ensures SumBy(Bump(t, d), NetOf()) == SumBy(t, NetOf()) + d.owed - d.youOwe
  {
    var k := IndexOf(t, d.user);
    if k >= 0 {
      SumByUpdate(t, k, Counterparty(d.user, t[k].owed + d.owed, t[k].youOwe + d.youOwe), NetOf());
    } else {
      SumByAppend(t, Counterparty(d.user, d.owed, d.youOwe), NetOf());
    }
  }

  lemma {:induction false} BookNet(t: seq<Counterparty>, ds: seq<Delta>)
    ensures SumBy(Book(t, ds), NetOf()) == SumBy(t, NetOf()) + SumBy(ds, DeltaNet())
  {
    if ds != [] {
      var n := |ds| - 1;
      BookNet(t, ds[..n]);
      BumpNet(Book(t, ds[..n]), ds[n]);
    }
  }

  /** `totalBalance` is the sum over the counterparties of what they owe me less what
      I owe them: every global update is mirrored by one per-counterparty update. */
  lemma TotalBalanceIsSumOfNets(expenses: seq<Expense>, settlements: seq<Settlement>, u: UserId)
    ensures UserBalancesOf(expenses, settlements, u).totalBalance
            == SumBy(Book([], BalanceDeltas(expenses, settlements, u)), NetOf())
  {
    var ds := BalanceDeltas(expenses, settlements, u);
    BookNet([], ds);
    SumByAdd(ds, DeltaNet(), DeltaYouOwe(), DeltaOwed());
  }

  function AbsNetOf(): Counterparty -> int {
    (c: Counterparty) => Expenses.Abs(c.owed - c.youOwe)
  }

  lemma {:induction false} ToEntriesAmounts(cs: seq<Counterparty>)
    ensures SumBy(ToEntries(cs), AmountOf()) == SumBy(cs, AbsNetOf())
  {
    if cs != [] {
      var n := |cs| - 1;
      assert ToEntries(cs)[..n] == ToEntries(cs[..n]);
      ToEntriesAmounts(cs[..n]);
    }
  }

  /** The amounts listed as owed to me, less those listed as owed by me, are the sum of
      all nets: the omitted entries have net 0. */
  lemma ListsNet(t: seq<Counterparty>)
    ensures SumBy(OwedList(t), AmountOf()) - SumBy(OweList(t), AmountOf()) == SumBy(t, NetOf())
  {
    ToEntriesAmounts(Filter(t, PositiveNet()));
    ToEntriesAmounts(Filter(t, NegativeNet()));
    var pos := (c: Counterparty) => if PositiveNet()(c) then AbsNetOf()(c) else 0;
    var neg := (c: Counterparty) => if NegativeNet()(c) then AbsNetOf()(c) else 0;
    SumByFilter(t, PositiveNet(), AbsNetOf(), pos);
    SumByFilter(t, NegativeNet(), AbsNetOf(), neg);
    SumByAdd(t, NetOf(), neg, pos);
  }

  lemma TotalBalanceIsListDifference(expenses: seq<Expense>, settlements: seq<Settlement>, u: UserId)
    ensures var r := UserBalancesOf(expenses, settlements, u);
            r.totalBalance == SumBy(r.youAreOwedList, AmountOf()) - SumBy(r.youOweList, AmountOf())
  {
    TotalBalanceIsSumOfNets(expenses, settlements, u);
    ListsNet(Book([], BalanceDeltas(expenses, settlements, u)));
  }

  /** The lists hold exactly the entries with a non-zero net, with amount `|net| > 0`,
      on the side the sign of the net selects. */
  lemma ListsExact(t: seq<Counterparty>)
    ensures forall x :: x in OwedList(t) ==> x.amount > 0 && exists c :: c in t && c.user == x.id && x.amount == c.owed - c.youOwe
    ensures forall x :: x in OweList(t) ==> x.amount > 0 && exists c :: c in t && c.user == x.id && x.amount == c.youOwe - c.owed
    ensures forall c :: c in t && c.owed - c.youOwe > 0 ==> Entry(c.user, c.owed - c.youOwe) in OwedList(t)
    ensures forall c :: c in t && c.owed - c.youOwe < 0 ==> Entry(c.user, c.youOwe - c.owed) in OweList(t)
  {
    OwedListSound(t);
    OweListSound(t);
    OwedListComplete(t);
    OweListComplete(t);
  }

  lemma OwedListSound(t: seq<Counterparty>)
    ensures forall x :: x in OwedList(t) ==> x.amount > 0 && exists c :: c in t && c.user == x.id && x.amount == c.owed - c.youOwe
  {
    var pos := Filter(t, PositiveNet());
    forall x | x in OwedList(t)
      ensures x.amount > 0 && exists c :: c in t && c.user == x.id && x.amount == c.owed - c.youOwe
    {
      var k :| 0 <= k < |pos| && ToEntries(pos)[k] == x;
      assert pos[k] in pos;
    }
  }

  lemma OweListSound(t: seq<Counterparty>)
    ensures forall x :: x in OweList(t) ==> x.amount > 0 && exists c :: c in t && c.user == x.id && x.amount == c.youOwe - c.owed
  {
    var neg := Filter(t, NegativeNet());
    forall x | x in OweList(t)
      ensures x.amount > 0 && exists c :: c in t && c.user == x.id && x.amount == c.youOwe - c.owed
    {
      var k :| 0 <= k < |neg| && ToEntries(neg)[k] == x;
      assert neg[k] in neg;
    }
  }

  lemma OwedListComplete(t: seq<Counterparty>)
    ensures forall c :: c in t && c.owed - c.youOwe > 0 ==> Entry(c.user, c.owed - c.youOwe) in OwedList(t)
  {
    var pos := Filter(t, PositiveNet());
    forall c | c in t && c.owed - c.youOwe > 0
      ensures Entry(c.user, c.owed - c.youOwe) in OwedList(t)
    {
      assert c in pos;
      var k :| 0 <= k < |pos| && pos[k] == c;
      assert ToEntries(pos)[k] == Entry(c.user, c.owed - c.youOwe);
    }
  }

  lemma OweListComplete(t: seq<Counterparty>)
    ensures forall c :: c in t && c.owed - c.youOwe < 0 ==> Entry(c.user, c.youOwe - c.owed) in OweList(t)
  {
    var neg := Filter(t, NegativeNet());
    forall c | c in t && c.owed - c.youOwe < 0
      ensures Entry(c.user, c.youOwe - c.owed) in OweList(t)
    {
      assert c in neg;
      var k :| 0 <= k < |neg| && neg[k] == c;
      assert ToEntries(neg)[k] == Entry(c.user, c.youOwe - c.owed);
    }
  }

  lemma ListsDisjointFor(t: seq<Counterparty>)
    requires UniqueUsers(t)
    ensures forall x, y :: x in OwedList(t) && y in OweList(t) ==> x.id != y.id
  {
    ListsExact(t);
    forall x, y | x in OwedList(t) && y in OweList(t)
      ensures x.id != y.id
    {
      var c1 :| c1 in t && c1.user == x.id && x.amount == c1.owed - c1.youOwe;
      var c2 :| c2 in t && c2.user == y.id && y.amount == c2.youOwe - c2.owed;
      var i :| 0 <= i < |t| && t[i] == c1;
      var j :| 0 <= j < |t| && t[j] == c2;
      assert i != j;
    }
  }

  /** No counterparty is listed on both sides, and every listed amount is positive. */
  lemma ListsDisjoint(expenses: seq<Expense>, settlements: seq<Settlement>, u: UserId)
    ensures var r := UserBalancesOf(expenses, settlements, u);
            && (forall x, y :: x in r.youAreOwedList && y in r.youOweList ==> x.id != y.id)
            && (forall x :: x in r.youAreOwedList + r.youOweList ==> x.amount > 0)
  {
    var t := Book([], BalanceDeltas(expenses, settlements, u));
    ListsExact(t);
    ListsDisjointFor(t);
  }

  /** The result depends on the stored records only through the caller's deltas. */
  lemma DeltasDetermineBalances(expenses: seq<Expense>, settlements: seq<Settlement>,
                                expenses': seq<Expense>, settlements': seq<Settlement>, u: UserId)
    requires BalanceDeltas(expenses, settlements, u) == BalanceDeltas(expenses', settlements', u)
    ensures UserBalancesOf(expenses, settlements, u) == UserBalancesOf(expenses', settlements', u)
  {
  }

  /** A grouped expense, or one that the caller neither paid nor takes part in, leaves
      the result unchanged wherever it is appended. */
  lemma UnreadExpenseIgnored(expenses: seq<Expense>, e: Expense, settlements: seq<Settlement>, u: UserId)
    requires e.groupId.Some? || (e.paidBy != u && !InSplits(e.splits, u))
    ensures UserBalancesOf(expenses + [e], settlements, u) == UserBalancesOf(expenses, settlements, u)
  {
    var read := ReadForBalances(u);
    assert !read(e);
    FilterConcat(expenses, [e], read);
    FilterNone([e], read);
    assert Filter(expenses, read) + [] == Filter(expenses, read);
    assert BalanceDeltas(expenses + [e], settlements, u) == BalanceDeltas(expenses, settlements, u);
    DeltasDetermineBalances(expenses + [e], settlements, expenses, settlements, u);
  }

  /** A grouped settlement, or one between two other users, leaves the result unchanged. */
  lemma UnreadSettlementIgnored(expenses: seq<Expense>, settlements: seq<Settlement>, s: Settlement, u: UserId)
    requires s.groupId.Some? || (s.paidBy != u && s.paidTo != u)
    ensures UserBalancesOf(expenses, settlements + [s], u) == UserBalancesOf(expenses, settlements, u)
  {
    var read := SettledWith(u);
    assert !read(s);
    FilterConcat(settlements, [s], read);
    FilterNone([s], read);
    assert Filter(settlements, read) + [] == Filter(settlements, read);
    assert BalanceDeltas(expenses, settlements + [s], u) == BalanceDeltas(expenses, settlements, u);
    DeltasDetermineBalances(expenses, settlements + [s], expenses, settlements, u);
  }

  function MarkAllPaid(splits: seq<Split>): (r: seq<Split>)
    ensures |r| == |splits|
    ensures forall i :: 0 <= i < |splits| ==> r[i] == splits[i].(hasPaid := true)
  {
    seq(|splits|, i requires 0 <= i < |splits| => splits[i].(hasPaid := true))
  }

  /** On the payer side `hasPaid` is ignored: a fully paid expense still counts every
      other participant's split as owed to the payer. */
  lemma {:induction false} PayerIgnoresHasPaid(splits: seq<Split>, u: UserId)
    ensures PayerDeltas(MarkAllPaid(splits), u) == PayerDeltas(splits, u)
  {
    if splits != [] {
      var n := |splits| - 1;
      assert MarkAllPaid(splits)[..n] == MarkAllPaid(splits[..n]);
      PayerIgnoresHasPaid(splits[..n], u);
    }
  }

  // ---------------------------------------------------------------- getTotalSpent

  /** Index query `by_date` from the start of the year. */
  function DatedFrom(startOfYear: int): Expense -> bool {
    (e: Expense) => e.date >= startOfYear
  }

  /** `expense.paidByUserId === user._id || …`: expenses carry no `paidByUserId`, so
      the first disjunct compares `undefined` with an id and is always false. */
  function ReadForSpending(u: UserId): Expense -> bool {
    (e: Expense) => false || InSplits(e.splits, u)
  }

  /** The caller's personal share: the amount of their first split, or 0. */
  function ShareOf(u: UserId): Expense -> int {
    (e: Expense) => match FindSplit(e.splits, u) case Some(s) => s.amount case None => 0
  }

  function SpendingExpenses(expenses: seq<Expense>, u: UserId, startOfYear: int): seq<Expense> {
    Filter(Filter(expenses, DatedFrom(startOfYear)), ReadForSpending(u))
  }

  function TotalSpentOf(expenses: seq<Expense>, u: UserId, startOfYear: int): int {
    SumBy(SpendingExpenses(expenses, u, startOfYear), ShareOf(u))
  }

  /** `startOfYear` stands for the timestamp of 1 January of the current year. */
  method GetTotalSpent(u: UserId, startOfYear: int, expenses: seq<Expense>) returns (totalSpent: int)
    ensures totalSpent == TotalSpentOf(expenses, u, startOfYear)
  {
    var userExpenses := SpendingExpenses(expenses, u, startOfYear);
    totalSpent := 0;
    var i := 0;
    while i < |userExpenses|
      invariant 0 <= i <= |userExpenses|
      invariant totalSpent == SumBy(userExpenses[..i], ShareOf(u))
    {
      var userSplit := FindSplit(userExpenses[i].splits, u);
      if userSplit.Some? {
        totalSpent := totalSpent + userSplit.value.amount;
      }
      SumBySnoc(userExpenses, i, ShareOf(u));
      i := i + 1;
    }
    assert userExpenses[..i] == userExpenses;
  }

  /** The share of an expense dated in the year, 0 for an earlier one. */
  function YearShareOf(u: UserId, startOfYear: int): Expense -> int {
    (e: Expense) => if e.date >= startOfYear then ShareOf(u)(e) else 0
  }

  /** The total is the sum of the caller's shares over every expense dated on or after
      the start of the year: the involvement filter removes only zero shares. */
  lemma TotalSpentIsYearShare(expenses: seq<Expense>, u: UserId, startOfYear: int)
    ensures TotalSpentOf(expenses, u, startOfYear) == SumBy(expenses, YearShareOf(u, startOfYear))
  {
    var dated := Filter(expenses, DatedFrom(startOfYear));
    SumByFilter(dated, ReadForSpending(u), ShareOf(u), ShareOf(u));
    SumByFilter(expenses, DatedFrom(startOfYear), ShareOf(u), YearShareOf(u, startOfYear));
  }

  // ---------------------------------------------------------------- getMonthlySpending

  /** An entry of `monthlyTotals` (and of the result): a month-start timestamp and the
      caller's spending in that month. */
  datatype MonthTotal = MonthTotal(month: int, total: int)

  function TotalOf(): MonthTotal -> int {
    (b: MonthTotal) => b.total
  }

  function Months(bs: seq<MonthTotal>): (r: seq<int>)
    ensures |r| == |bs| && forall i :: 0 <= i < |bs| ==> r[i] == bs[i].month
  {
    if bs == [] then [] else Months(bs[..|bs| - 1]) + [bs[|bs| - 1].month]
  }

  function MonthIndex(bs: seq<MonthTotal>, m: int): (k: int)
    ensures -1 <= k < |bs|
    ensures k >= 0 ==> bs[k].month == m
    ensures k < 0 ==> forall i :: 0 <= i < |bs| ==> bs[i].month != m
  {
    if bs == [] then -1
    else if bs[|bs| - 1].month == m then |bs| - 1
    else MonthIndex(bs[..|bs| - 1], m)
  }

  /** `monthlyTotals[m] || 0` */
  function TotalAt(bs: seq<MonthTotal>, m: int): int {
    var k := MonthIndex(bs, m);
    if k >= 0 then bs[k].total else 0
  }

  /** `monthlyTotals[m] = x`: a numeric key beyond the array-index range keeps its
      insertion position. */
  function SetMonth(bs: seq<MonthTotal>, m: int, x: int): seq<MonthTotal> {
    var k := MonthIndex(bs, m);
    if k >= 0 then bs[k := MonthTotal(m, x)] else bs + [MonthTotal(m, x)]
  }

  /** Setting a bucket adds its month when it is absent and never makes a month twice. */
  lemma SetMonthMonths(bs: seq<MonthTotal>, m: int, x: int)
    ensures forall n :: n in Months(SetMonth(bs, m, x)) <==> n in Months(bs) || n == m
    ensures Distinct(Months(bs)) ==> Distinct(Months(SetMonth(bs, m, x)))
  {
    var k := MonthIndex(bs, m);
    if k >= 0 {
      assert Months(bs[k := MonthTotal(m, x)]) == Months(bs);
    } else {
      assert Months(bs + [MonthTotal(m, x)]) == Months(bs) + [m];
    }
  }

  /** The twelve zero buckets, one per month start of the year. */
  function InitMonths(monthStarts: seq<int>): (r: seq<MonthTotal>)
    ensures Distinct(Months(r))
    ensures forall n :: n in Months(r) <==> n in monthStarts
    ensures forall b :: b in r ==> b.total == 0
  {
    if monthStarts == [] then []
    else
      var prev := InitMonths(monthStarts[..|monthStarts| - 1]);
      var r := SetMonth(prev, monthStarts[|monthStarts| - 1], 0);
      SetMonthMonths(prev, monthStarts[|monthStarts| - 1], 0);
      assert forall b :: b in r ==> b in prev || b == MonthTotal(monthStarts[|monthStarts| - 1], 0);
      r
  }

  /** The caller's share of each expense added to the bucket of its month; `monthOf`
      stands for the month-start timestamp of a date. */
  function AddShares(bs: seq<MonthTotal>, es: seq<Expense>, u: UserId, monthOf: int -> int): seq<MonthTotal> {
    if es == [] then bs else AddShare(AddShares(bs, es[..|es| - 1], u, monthOf), es[|es| - 1], u, monthOf)
  }

  /** One expense: `monthlyTotals[monthStart] = (monthlyTotals[monthStart] || 0) + userSplit.amount`
      when the caller has a split. */
  function AddShare(bs: seq<MonthTotal>, e: Expense, u: UserId, monthOf: int -> int): seq<MonthTotal> {
    match FindSplit(e.splits, u)
    case Some(s) => SetMonth(bs, monthOf(e.date), TotalAt(bs, monthOf(e.date)) + s.amount)
    case None => bs
  }

  /** The sums keep every bucket there was and never make a month's bucket twice. */
  lemma {:induction false} AddSharesMonths(bs: seq<MonthTotal>, es: seq<Expense>, u: UserId, monthOf: int -> int)
    ensures forall n :: n in Months(bs) ==> n in Months(AddShares(bs, es, u, monthOf))
    ensures Distinct(Months(bs)) ==> Distinct(Months(AddShares(bs, es, u, monthOf)))
  {
    if es != [] {
      var prev := AddShares(bs, es[..|es| - 1], u, monthOf);
      var e := es[|es| - 1];
      AddSharesMonths(bs, es[..|es| - 1], u, monthOf);
      match FindSplit(e.splits, u)
      case Some(s) => SetMonthMonths(prev, monthOf(e.date), TotalAt(prev, monthOf(e.date)) + s.amount);
      case None =>
    }
  }

  /** Ascending by month, with no month twice. */
  predicate Ascending(bs: seq<MonthTotal>) {
    forall i, j :: 0 <= i < j < |bs| ==> bs[i].month < bs[j].month
  }

  function InsertByMonth(x: MonthTotal, sorted: seq<MonthTotal>): (r: seq<MonthTotal>)
    ensures multiset(r) == multiset(sorted) + multiset{x}
  {
    if sorted == [] then [x]
    else if x.month < sorted[0].month then [x] + sorted
    else
      assert sorted == [sorted[0]] + sorted[1..];
      [sorted[0]] + InsertByMonth(x, sorted[1..])
  }

  /** `result.sort((a, b) => a.month - b.month)`, the library sort, as a function on
      the array's contents. */
  function SortByMonth(bs: seq<MonthTotal>): (r: seq<MonthTotal>)
    ensures multiset(r) == multiset(bs)
  {
    if bs == [] then []
    else
      assert bs == bs[..|bs| - 1] + [bs[|bs| - 1]];
      InsertByMonth(bs[|bs| - 1], SortByMonth(bs[..|bs| - 1]))
  }

  /** Inserting a month not yet present keeps the buckets ascending. */
  lemma {:induction false} InsertAscending(x: MonthTotal, sorted: seq<MonthTotal>)
    requires Ascending(sorted)
    requires forall y :: y in sorted ==> y.month != x.month
    ensures Ascending(InsertByMonth(x, sorted))
  {
    if sorted != [] && x.month >= sorted[0].month {
      var rest := sorted[1..];
      InsertAscending(x, rest);
      var r := InsertByMonth(x, rest);
      forall y | y in r
        ensures sorted[0].month < y.month
      {
        assert y in multiset(r);
        assert y in rest || y == x;
      }
    }
  }

  /** With distinct months the sort yields them strictly ascending. */
  lemma {:induction false} SortAscending(bs: seq<MonthTotal>)
    requires Distinct(Months(bs))
    ensures Ascending(SortByMonth(bs))
  {
    if bs != [] {
      var n := |bs| - 1;
      assert Months(bs[..n]) == Months(bs)[..n];
      SortAscending(bs[..n]);
      var sorted := SortByMonth(bs[..n]);
      forall y | y in sorted
        ensures y.month != bs[n].month
      {
        assert y in multiset(bs[..n]);
        var k :| 0 <= k < n && bs[k] == y;
        assert Months(bs)[k] != Months(bs)[n];
      }
      InsertAscending(bs[n], sorted);
    }
  }

  function MonthlySpendingOf(expenses: seq<Expense>, u: UserId, startOfYear: int, monthStarts: seq<int>,
                             monthOf: int -> int): seq<MonthTotal> {
    SortByMonth(AddShares(InitMonths(monthStarts), SpendingExpenses(expenses, u, startOfYear), u, monthOf))
  }

  /** "Initialize all months with zero". */
  method InitMonthsLoop(monthStarts: seq<int>) returns (monthlyTotals: seq<MonthTotal>)
    requires |monthStarts| == 12
    ensures monthlyTotals == InitMonths(monthStarts)
  {
    monthlyTotals := [];
    for i := 0 to 12
      invariant monthlyTotals == InitMonths(monthStarts[..i])
    {
      assert monthStarts[..i + 1][..i] == monthStarts[..i];
      monthlyTotals := SetMonth(monthlyTotals, monthStarts[i], 0);
    }
    assert monthStarts[..12] == monthStarts;
  }

  lemma AddSharesStep(bs: seq<MonthTotal>, es: seq<Expense>, j: int, u: UserId, monthOf: int -> int)
    requires 0 <= j < |es|
    ensures AddShares(bs, es[..j + 1], u, monthOf) == AddShare(AddShares(bs, es[..j], u, monthOf), es[j], u, monthOf)
  {
    assert es[..j + 1][..j] == es[..j];
  }

  /** The body of the summation loop. */
  method AddShareOf(monthlyTotals0: seq<MonthTotal>, e: Expense, u: UserId, monthOf: int -> int)
    returns (monthlyTotals: seq<MonthTotal>)
    ensures monthlyTotals == AddShare(monthlyTotals0, e, u, monthOf)
  {
    monthlyTotals := monthlyTotals0;
    var userSplit := FindSplit(e.splits, u);
    if userSplit.Some? {
      var monthStart := monthOf(e.date);
      monthlyTotals := SetMonth(monthlyTotals, monthStart, TotalAt(monthlyTotals, monthStart) + userSplit.value.amount);
    }
  }

  /** "Sum up expenses by month". */
  method AddSharesLoop(init: seq<MonthTotal>, userExpenses: seq<Expense>, u: UserId, monthOf: int -> int)
    returns (monthlyTotals: seq<MonthTotal>)
    ensures monthlyTotals == AddShares(init, userExpenses, u, monthOf)
  {
    monthlyTotals := init;
    var j := 0;
    while j < |userExpenses|
      invariant 0 <= j <= |userExpenses|
      invariant monthlyTotals == AddShares(init, userExpenses[..j], u, monthOf)
    {
      AddSharesStep(init, userExpenses, j, u, monthOf);
      monthlyTotals := AddShareOf(monthlyTotals, userExpenses[j], u, monthOf);
      j := j + 1;
    }
    assert userExpenses[..j] == userExpenses;
  }

  /** `monthStarts[i]` stands for `new Date(currentYear, i, 1).getTime()`. */
  method GetMonthlySpending(u: UserId, startOfYear: int, monthStarts: seq<int>, monthOf: int -> int,
                            expenses: seq<Expense>) returns (result: seq<MonthTotal>)
    requires |monthStarts| == 12
    ensures result == MonthlySpendingOf(expenses, u, startOfYear, monthStarts, monthOf)
  {
    var userExpenses := SpendingExpenses(expenses, u, startOfYear);
    var monthlyTotals := InitMonthsLoop(monthStarts);
    monthlyTotals := AddSharesLoop(monthlyTotals, userExpenses, u, monthOf);
    result := SortByMonth(monthlyTotals);
  }

  lemma SetMonthTotal(bs: seq<MonthTotal>, m: int, x: int)
    ensures SumBy(SetMonth(bs, m, x), TotalOf()) == SumBy(bs, TotalOf()) - TotalAt(bs, m) + x
  {
    var k := MonthIndex(bs, m);
    if k >= 0 {
      SumByUpdate(bs, k, MonthTotal(m, x), TotalOf());
    } else {
      SumByAppend(bs, MonthTotal(m, x), TotalOf());
    }
  }

  /** One share changes the grand total by exactly that share. */
  lemma AddShareTotal(bs: seq<MonthTotal>, e: Expense, u: UserId, monthOf: int -> int)
    ensures SumBy(AddShare(bs, e, u, monthOf), TotalOf()) == SumBy(bs, TotalOf()) + ShareOf(u)(e)
  {
    match FindSplit(e.splits, u)
    case Some(s) =>
      var m := monthOf(e.date);
      SetMonthTotal(bs, m, TotalAt(bs, m) + s.amount);
    case None =>
  }

  lemma {:induction false} AddSharesTotal(bs: seq<MonthTotal>, es: seq<Expense>, u: UserId, monthOf: int -> int)
    ensures SumBy(AddShares(bs, es, u, monthOf), TotalOf()) == SumBy(bs, TotalOf()) + SumBy(es, ShareOf(u))
  {
    if es != [] {
      var n := |es| - 1;
      AddSharesTotal(bs, es[..n], u, monthOf);
      AddShareTotal(AddShares(bs, es[..n], u, monthOf), es[n], u, monthOf);
    }
  }

  lemma {:induction false} InsertTotal(x: MonthTotal, sorted: seq<MonthTotal>)
    ensures SumBy(InsertByMonth(x, sorted), TotalOf()) == SumBy(sorted, TotalOf()) + x.total
  {
    if sorted == [] {
      SumByAppend([], x, TotalOf());
    } else if x.month < sorted[0].month {
      SumByConcat([x], sorted, TotalOf());
      SumByAppend([], x, TotalOf());
    } else {
      InsertTotal(x, sorted[1..]);
      SumByConcat([sorted[0]], InsertByMonth(x, sorted[1..]), TotalOf());
      SumByConcat([sorted[0]], sorted[1..], TotalOf());
      assert [sorted[0]] + sorted[1..] == sorted;
    }
  }

  lemma {:induction false} SortTotal(bs: seq<MonthTotal>)
    ensures SumBy(SortByMonth(bs), TotalOf()) == SumBy(bs, TotalOf())
  {
    if bs != [] {
      var n := |bs| - 1;
      SortTotal(bs[..n]);
      InsertTotal(bs[n], SortByMonth(bs[..n]));
    }
  }

  /** The result is ascending by month with one bucket per month, every month start of
      the year has its bucket, and the buckets add up to getTotalSpent. */
  lemma MonthlySpendingProperties(expenses: seq<Expense>, u: UserId, startOfYear: int, monthStarts: seq<int>,
                                  monthOf: int -> int)
    ensures var r := MonthlySpendingOf(expenses, u, startOfYear, monthStarts, monthOf);
            && Ascending(r)
            && (forall m :: m in monthStarts ==> exists i :: 0 <= i < |r| && r[i].month == m)
            && SumBy(r, TotalOf()) == TotalSpentOf(expenses, u, startOfYear)
  {
    var init := InitMonths(monthStarts);
    var es := SpendingExpenses(expenses, u, startOfYear);
    var filled := AddShares(init, es, u, monthOf);
    AddSharesMonths(init, es, u, monthOf);
    SortAscending(filled);
    MonthsKept(filled, SortByMonth(filled), monthStarts);
    SumByZero(init, TotalOf());
    AddSharesTotal(init, es, u, monthOf);
    SortTotal(filled);
  }

  /** Reordering buckets loses none of their months. */
  lemma MonthsKept(bs: seq<MonthTotal>, r: seq<MonthTotal>, ms: seq<int>)
    requires multiset(r) == multiset(bs)
    requires forall n :: n in ms ==> n in Months(bs)
    ensures forall m :: m in ms ==> exists i :: 0 <= i < |r| && r[i].month == m
  {
    forall m | m in ms
      ensures exists i :: 0 <= i < |r| && r[i].month == m
    {
      var k :| 0 <= k < |bs| && Months(bs)[k] == m;
      assert bs[k] in multiset(r);
      var i :| 0 <= i < |r| && r[i] == bs[k];
    }
  }

  // ---------------------------------------------------------------- getUserGroups

  /** The tolerant membership test of the group list: a bare id, a `{userId}` object
      or an `{_id}` object naming the caller; null never matches. */
  predicate MatchesUser(m: Member, u: UserId) {
    match m
    case Null => false
    case Ref(x) => x == u
    case Doc(x) => x == u
    case Bare(x) => x == u
  }

  function ListsUser(u: UserId): Group -> bool {
    (g: Group) => exists i :: 0 <= i < |g.members| && MatchesUser(g.members[i], u)
  }

  function UserGroups(groups: seq<Group>, u: UserId): seq<Group> {
    Filter(groups, ListsUser(u))
  }

  /** Every group the creation guards count the caller a member of (a bare id) is
      listed, and so is every group the settlement view accepts (a `{userId}` entry). */
  lemma UserGroupsIncludeMemberships(groups: seq<Group>, u: UserId)
    ensures forall g :: g in groups && HasBareMember(g, u) ==> g in UserGroups(groups, u)
    ensures forall g :: g in groups && Ref(u) in g.members ==> g in UserGroups(groups, u)
    ensures forall g :: g in UserGroups(groups, u) ==> g in groups
  {
    forall g | g in groups && (HasBareMember(g, u) || Ref(u) in g.members)
      ensures g in UserGroups(groups, u)
    {
      var i :| 0 <= i < |g.members| && (g.members[i] == Bare(u) || g.members[i] == Ref(u));
      assert MatchesUser(g.members[i], u);
    }
  }

  function OtherUnpaidOf(u: UserId): Split -> int {
    (s: Split) => if s.userId != u && !s.hasPaid then s.amount else 0
  }

  /** One group expense: the others' unpaid splits when I paid, less my first split
      when someone else paid and it is unpaid. */
  function GroupExpenseTerm(e: Expense, u: UserId): int {
    if e.paidBy == u then SumBy(e.splits, OtherUnpaidOf(u))
    else
      match FindSplit(e.splits, u)
      case Some(s) => if !s.hasPaid then -s.amount else 0
      case None => 0
  }

  function GroupExpenseTermOf(u: UserId): Expense -> int {
    (e: Expense) => GroupExpenseTerm(e, u)
  }

  function GroupExpensePart(gid: GroupId, expenses: seq<Expense>, u: UserId): int {
    SumBy(Filter(expenses, InGroup(gid)), GroupExpenseTermOf(u))
  }

  function PartyTo(u: UserId): Settlement -> bool {
    (s: Settlement) => s.paidBy == u || s.paidTo == u
  }

  /** The group's settlements in which the caller is a party: the evidently intended
      meaning of the `.filter` call. */
  function GroupSettlementsOf(settlements: seq<Settlement>, gid: GroupId, u: UserId): seq<Settlement> {
    Filter(Filter(settlements, SettledInGroup(gid)), PartyTo(u))
  }

  /** The group balance, settlements I paid added and those paid to me subtracted. */
  function GroupBalance(gid: GroupId, expenses: seq<Expense>, settlements: seq<Settlement>, u: UserId): int {
    GroupExpensePart(gid, expenses, u)
      + Expenses.SettlementBalance(GroupSettlementsOf(settlements, gid, u), u)
  }

  /** The `.filter` callback as written: it is handed the query's filter builder, not a
      document, so `s.paidBy` and `s.paidTo` are undefined and it yields `false`. */
  function BuilderCallback(): Settlement -> bool {
    (s: Settlement) => false
  }

  function GroupBalanceAsWritten(gid: GroupId, expenses: seq<Expense>, settlements: seq<Settlement>, u: UserId): int {
    GroupExpensePart(gid, expenses, u)
      + Expenses.SettlementBalance(Filter(Filter(settlements, SettledInGroup(gid)), BuilderCallback()), u)
  }

  /** As written, no settlement reaches the balance: it is the expense part alone. */
  lemma AsWrittenIgnoresSettlements(gid: GroupId, expenses: seq<Expense>, settlements: seq<Settlement>, u: UserId)
    ensures GroupBalanceAsWritten(gid, expenses, settlements, u) == GroupExpensePart(gid, expenses, u)
  {
    FilterNone(Filter(settlements, SettledInGroup(gid)), BuilderCallback());
  }

  /** A pays 20.00 in group 1 split 10.00 / 10.00 with B, and B then settles 10.00 with
      A in the group: as written A's group balance still shows 10.00 owed, where the
      recorded settlement should bring it to 0. */
  lemma SettlementFilterFinding()
    ensures var e := Expense(1, "dinner", 2000, "foodDrink", 0, 10, "equal",
                             [Split(10, 1000, false), Split(20, 1000, false)], Some(1), 10);
            var st := Settlement(2, 1000, None, 1, 20, 10, Some(1), None, 20);
            && GroupBalanceAsWritten(1, [e], [st], 10) == 1000
            && GroupBalance(1, [e], [st], 10) == 0
  {
    var e := Expense(1, "dinner", 2000, "foodDrink", 0, 10, "equal",
                     [Split(10, 1000, false), Split(20, 1000, false)], Some(1), 10);
    var st := Settlement(2, 1000, None, 1, 20, 10, Some(1), None, 20);
    assert Filter([e], InGroup(1)) == [e];
    assert e.splits == [Split(10, 1000, false)] + [Split(20, 1000, false)];
    SumByAppend([Split(10, 1000, false)], Split(20, 1000, false), OtherUnpaidOf(10));
    SumByAppend([], Split(10, 1000, false), OtherUnpaidOf(10));
    assert GroupExpenseTerm(e, 10) == 1000;
    SumByAppend([], e, GroupExpenseTermOf(10));
    AsWrittenIgnoresSettlements(1, [e], [st], 10);
    assert Filter([st], SettledInGroup(1)) == [st];
    assert GroupSettlementsOf([st], 1, 10) == [st];
    SumByAppend([], st, Expenses.SettlementTermOf(10));
  }

  /** With the intended filter, recording a settlement of the group in which the caller
      is a party moves the balance by exactly that settlement, and any other settlement
      leaves it alone. */
  lemma GroupBalanceAppliesSettlement(gid: GroupId, expenses: seq<Expense>, settlements: seq<Settlement>,
                                      s: Settlement, u: UserId)
    ensures GroupBalance(gid, expenses, settlements + [s], u)
            == GroupBalance(gid, expenses, settlements, u)
               + (if s.groupId == Some(gid) && (s.paidBy == u || s.paidTo == u)
                  then Expenses.SettlementTerm(s, u) else 0)
  {
    var inGroup := Filter(settlements, SettledInGroup(gid));
    var party := Filter(inGroup, PartyTo(u));
    assert (settlements + [s])[..|settlements + [s]| - 1] == settlements;
    if s.groupId == Some(gid) {
      assert Filter(settlements + [s], SettledInGroup(gid)) == inGroup + [s];
      assert (inGroup + [s])[..|inGroup + [s]| - 1] == inGroup;
      if s.paidBy == u || s.paidTo == u {
        assert GroupSettlementsOf(settlements + [s], gid, u) == party + [s];
        SumByAppend(party, s, Expenses.SettlementTermOf(u));
      } else {
        assert GroupSettlementsOf(settlements + [s], gid, u) == party + [];
        assert party + [] == party;
      }
    } else {
      assert Filter(settlements + [s], SettledInGroup(gid)) == inGroup + [];
      assert inGroup + [] == inGroup;
    }
  }

  /** `{...group, id: group._id, balance}` */
  datatype GroupSummary = GroupSummary(group: Group, balance: int)

  /** The balance loops of one group: its expenses, with the inner loop over the splits,
      then its settlements. */
  method GroupBalanceLoop(gid: GroupId, expenses: seq<Expense>, settlements: seq<Settlement>, u: UserId)
    returns (balance: int)
    ensures balance == GroupBalance(gid, expenses, settlements, u)
  {
    var es := Filter(expenses, InGroup(gid));
    balance := 0;
    var i := 0;
    while i < |es|
      invariant 0 <= i <= |es|
      invariant balance == SumBy(es[..i], GroupExpenseTermOf(u))
    {
      var e := es[i];
      if e.paidBy == u {
        var before := balance;
        var k := 0;
        while k < |e.splits|
          invariant 0 <= k <= |e.splits|
          invariant balance == before + SumBy(e.splits[..k], OtherUnpaidOf(u))
        {
          var split := e.splits[k];
          if split.userId != u && !split.hasPaid {
            balance := balance + split.amount;
          }
          SumBySnoc(e.splits, k, OtherUnpaidOf(u));
          k := k + 1;
        }
        assert e.splits[..k] == e.splits;
      } else {
        var userSplit := FindSplit(e.splits, u);
        if userSplit.Some? && !userSplit.value.hasPaid {
          balance := balance - userSplit.value.amount;
        }
      }
      SumBySnoc(es, i, GroupExpenseTermOf(u));
      i := i + 1;
    }
    assert es[..i] == es;
    var ss := GroupSettlementsOf(settlements, gid, u);
    var expensePart := balance;
    var k := 0;
    while k < |ss|
      invariant 0 <= k <= |ss|
      invariant balance == expensePart + SumBy(ss[..k], Expenses.SettlementTermOf(u))
    {
      var st := ss[k];
      if st.paidBy == u {
        balance := balance + st.amount;
      } else {
        balance := balance - st.amount;
      }
      SumBySnoc(ss, k, Expenses.SettlementTermOf(u));
      k := k + 1;
    }
    assert ss[..k] == ss;
  }

  /** The summaries of the first `n` groups. */
  predicate SummariesUpTo(r: seq<GroupSummary>, gs: seq<Group>, n: nat,
                          expenses: seq<Expense>, settlements: seq<Settlement>, u: UserId)
    requires n <= |r| && n <= |gs|
  {
    forall j :: 0 <= j < n ==> r[j] == GroupSummary(gs[j], GroupBalance(gs[j].id, expenses, settlements, u))
  }

  lemma SummariesStep(r: seq<GroupSummary>, gs: seq<Group>, i: nat,
                      expenses: seq<Expense>, settlements: seq<Settlement>, u: UserId, x: GroupSummary)
    requires i == |r| && i < |gs| && SummariesUpTo(r, gs, i, expenses, settlements, u)
    requires x == GroupSummary(gs[i], GroupBalance(gs[i].id, expenses, settlements, u))
    ensures SummariesUpTo(r + [x], gs, i + 1, expenses, settlements, u)
  {
    assert forall j :: 0 <= j < i ==> (r + [x])[j] == r[j];
  }

  method GetUserGroups(u: UserId, groups: seq<Group>, expenses: seq<Expense>, settlements: seq<Settlement>)
    returns (r: seq<GroupSummary>)
    ensures |r| == |UserGroups(groups, u)|
    ensures forall i :: 0 <= i < |r| ==>
              r[i] == GroupSummary(UserGroups(groups, u)[i],
                                   GroupBalance(UserGroups(groups, u)[i].id, expenses, settlements, u))
  {
    var userGroups := UserGroups(groups, u);
    r := [];
    var i := 0;
    while i < |userGroups|
      invariant 0 <= i <= |userGroups|
      invariant |r| == i
      invariant SummariesUpTo(r, userGroups, i, expenses, settlements, u)
    {
      var group := userGroups[i];
      var balance := GroupBalanceLoop(group.id, expenses, settlements, u);
      SummariesStep(r, userGroups, i, expenses, settlements, u, GroupSummary(group, balance));
      r := r + [GroupSummary(group, balance)];
      i := i + 1;
    }
  }
}
