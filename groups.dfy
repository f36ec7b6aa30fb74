/** The group page (convex/groups.js): the ledger of one group, where every member's
    total and the pairwise debts come from the group's own expenses and settlements,
    and the list of the caller's groups with one of them opened.

    The source keeps `totals[id]` and `ledger[a][b]` (what member a owes member b) in
    plain objects. Here `totals` is a map over the member ids and `ledger` a map over
    ordered pairs of distinct members. An expense paid by a non-member, or a settlement
    paid to one, writes NaN into a cell outside those maps; no such cell ever reaches
    the result, so the model does not keep it. A debtor or settlement payer outside
    the members makes `ledger[x]` undefined and the property access throws. */
module Groups {
  import opened Seqs
  import opened Records

  type Totals = map<UserId, int>
  type Ledger = map<(UserId, UserId), int>

  datatype State = State(totals: Totals, ledger: Ledger)

  function Members(ids: seq<UserId>): set<UserId> {
    set m | m in ids
  }

  /** The ordered pairs of distinct members: the cells `ledger[a][b]` with `a !== b`. */
  function Pairs(ids: seq<UserId>): set<(UserId, UserId)> {
    set a, b | a in ids && b in ids && a != b :: (a, b)
  }

  /** The ledger has exactly the cells of the member pairs. */
  predicate LedgerOver(l: Ledger, ids: seq<UserId>) {
    l.Keys == Pairs(ids)
  }

  predicate WellFormed(st: State, ids: seq<UserId>) {
    st.totals.Keys == Members(ids) && LedgerOver(st.ledger, ids)
  }

  /** An amount `v` booked in the cell `(c0, c1)`: `c0` owes `c1` `v` more, so `v` moves
      from `c0`'s total to `c1`'s. */
  function Moved(st: State, c0: UserId, c1: UserId, v: int): State
    requires c0 in st.totals && c1 in st.totals && (c0, c1) in st.ledger
  {
    State(st.totals[c1 := st.totals[c1] + v][c0 := st.totals[c0] - v],
          st.ledger[(c0, c1) := st.ledger[(c0, c1)] + v])
  }

  // ---------------------------------------------------------------------------
  // Members

  /** `grp.members.map(ctx.db.get)` followed by `.map((m) => m._id)`: a member that is
      not an id makes the read throw; an id naming no user reads null, and `null._id`
      throws. */
  function MemberIds(members: seq<Member>, users: seq<UserId>): (r: Result<seq<UserId>>)
    ensures r.Ok? <==> forall m :: m in members ==> m.Bare? && m.id in users
    ensures r.Ok? ==> |r.value| == |members| && forall k :: 0 <= k < |members| ==> members[k] == Bare(r.value[k])
    ensures r.Err? ==> (r.error == InvalidId <==> exists m :: m in members && !m.Bare?)
    ensures r.Err? ==> r.error == InvalidId || r.error == TypeError
  {
    if exists m :: m in members && !m.Bare? then Err(InvalidId)
    else if exists m :: m in members && m.id !in users then Err(TypeError)
    else Ok(seq(|members|, k requires 0 <= k < |members| => members[k].id))
  }

  // ---------------------------------------------------------------------------
  // Initial tables

  /** `Object.fromEntries(ids.map((id) => [id, 0]))` and the zero ledger. */
  function ZeroState(ids: seq<UserId>): (st: State)
    ensures WellFormed(st, ids)
  {
    State(map m | m in Members(ids) :: 0, map p | p in Pairs(ids) :: 0)
  }

  /** The nested `ids.forEach` that fills the ledger with zeros. `ledger[a] = {}` clears the
      row of `a` before it is filled again, which matters when an id occurs twice. */
  method ZeroLedger(ids: seq<UserId>) returns (ledger: Ledger)
    ensures ledger == ZeroState(ids).ledger
  {
    ledger := map[];
    var i := 0;
    while i < |ids|
      invariant 0 <= i <= |ids|
      invariant forall p :: p in ledger <==> p.0 in ids[..i] && p.1 in ids && p.0 != p.1
      invariant forall p :: p in ledger ==> ledger[p] == 0
    {
      var a := ids[i];
      ledger := map p | p in ledger && p.0 != a :: ledger[p];
      var j := 0;
      while j < |ids|
        invariant 0 <= j <= |ids|
        invariant forall p :: p in ledger <==>
          ((p.0 in ids[..i] && p.0 != a && p.1 in ids) || (p.0 == a && p.1 in ids[..j])) && p.0 != p.1
        invariant forall p :: p in ledger ==> ledger[p] == 0
      {
        assert ids[..j + 1] == ids[..j] + [ids[j]];
        if a != ids[j] {
          ledger := ledger[(a, ids[j]) := 0];
        }
        j := j + 1;
      }
      assert ids[..i + 1] == ids[..i] + [a];
      assert ids[..j] == ids;
      i := i + 1;
    }
    assert ids[..i] == ids;
    assert ledger.Keys == Pairs(ids);
  }

  // ---------------------------------------------------------------------------
  // Expenses and settlements

  /** One split of an expense: a split of someone other than the payer moves its amount
      from the debtor's total to the payer's and into `ledger[debtor][payer]`. `hasPaid`
      plays no part. */
  function ApplySplit(st: State, ids: seq<UserId>, payer: UserId, s: Split): (r: Result<State>)
    requires WellFormed(st, ids)
    ensures r.Ok? <==> s.userId == payer || s.userId in ids
    ensures r.Ok? ==> WellFormed(r.value, ids)
    ensures r.Err? ==> r.error == TypeError
  {
    if s.userId == payer then Ok(st)
    else if s.userId !in ids then Err(TypeError)
    else if payer in ids then Ok(Moved(st, s.userId, payer, s.amount))
    else Ok(State(st.totals[s.userId := st.totals[s.userId] - s.amount], st.ledger))
  }

  /** Every split can be booked: it is the payer's own or it names a member. */
  predicate SplitsResolve(ids: seq<UserId>, payer: UserId, splits: seq<Split>) {
    forall s :: s in splits ==> s.userId == payer || s.userId in ids
  }

  function ApplySplits(st: State, ids: seq<UserId>, payer: UserId, splits: seq<Split>): (r: Result<State>)
    requires WellFormed(st, ids)
    ensures r.Ok? <==> SplitsResolve(ids, payer, splits)
    ensures r.Ok? ==> WellFormed(r.value, ids)
    ensures r.Err? ==> r.error == TypeError
  {
    if splits == [] then Ok(st)
    else
      match ApplySplits(st, ids, payer, splits[..|splits| - 1])
      case Err(e) => Err(e)
      case Ok(st1) => ApplySplit(st1, ids, payer, splits[|splits| - 1])
  }

  predicate ExpensesResolve(ids: seq<UserId>, es: seq<Expense>) {
    forall e :: e in es ==> SplitsResolve(ids, e.paidBy, e.splits)
  }

  function ApplyExpenses(st: State, ids: seq<UserId>, es: seq<Expense>): (r: Result<State>)
    requires WellFormed(st, ids)
    ensures r.Ok? <==> ExpensesResolve(ids, es)
    ensures r.Ok? ==> WellFormed(r.value, ids)
    ensures r.Err? ==> r.error == TypeError
  {
    if es == [] then Ok(st)
    else
      match ApplyExpenses(st, ids, es[..|es| - 1])
      case Err(e) => Err(e)
      case Ok(st1) => ApplySplits(st1, ids, es[|es| - 1].paidBy, es[|es| - 1].splits)
  }

  /** A settlement moves its amount from the receiver's total to the payer's and takes it
      off `ledger[paidBy][paidTo]`. A payer outside the members throws; a settlement
      with oneself leaves both tables as they were. */
  function ApplySettlement(st: State, ids: seq<UserId>, s: Settlement): (r: Result<State>)
    requires WellFormed(st, ids)
    ensures r.Ok? <==> s.paidBy in ids
    ensures r.Ok? ==> WellFormed(r.value, ids)
    ensures r.Err? ==> r.error == TypeError
  {
    if s.paidBy !in ids then Err(TypeError)
    else if s.paidTo == s.paidBy then Ok(st)
    else if s.paidTo in ids then Ok(Moved(st, s.paidBy, s.paidTo, -s.amount))
    else Ok(State(st.totals[s.paidBy := st.totals[s.paidBy] + s.amount], st.ledger))
  }

  function ApplySettlements(st: State, ids: seq<UserId>, ss: seq<Settlement>): (r: Result<State>)
    requires WellFormed(st, ids)
    ensures r.Ok? <==> forall s :: s in ss ==> s.paidBy in ids
    ensures r.Ok? ==> WellFormed(r.value, ids)
    ensures r.Err? ==> r.error == TypeError
  {
    if ss == [] then Ok(st)
    else
      match ApplySettlements(st, ids, ss[..|ss| - 1])
      case Err(e) => Err(e)
      case Ok(st1) => ApplySettlement(st1, ids, ss[|ss| - 1])
  }

  /** The loop over the splits of one expense. */
  method ApplySplitsLoop(ids: seq<UserId>, payer: UserId, splits: seq<Split>, totals0: Totals, ledger0: Ledger)
    returns (r: Result<State>)
    requires WellFormed(State(totals0, ledger0), ids)
    ensures r == ApplySplits(State(totals0, ledger0), ids, payer, splits)
  {
    var totals, ledger := totals0, ledger0;
    var t := 0;
    while t < |splits|
      invariant 0 <= t <= |splits|
      invariant ApplySplits(State(totals0, ledger0), ids, payer, splits[..t]) == Ok(State(totals, ledger))
    {
      var s := splits[t];
      assert splits[..t + 1][..t] == splits[..t];
      if s.userId != payer {
        var debtor, amt := s.userId, s.amount;
        if debtor !in ids {
          assert !SplitsResolve(ids, payer, splits) by { assert s in splits; }
          return Err(TypeError);
        }
        if payer in ids {
          totals := totals[payer := totals[payer] + amt];
        }
        totals := totals[debtor := totals[debtor] - amt];
        if payer in ids {
          ledger := ledger[(debtor, payer) := ledger[(debtor, payer)] + amt];
        }
      }
      t := t + 1;
    }
    assert splits[..t] == splits;
    r := Ok(State(totals, ledger));
  }

  /** `for (const exp of expenses)` */
  method ApplyExpensesLoop(ids: seq<UserId>, es: seq<Expense>, totals0: Totals, ledger0: Ledger)
    returns (r: Result<State>)
    requires WellFormed(State(totals0, ledger0), ids)
    ensures r == ApplyExpenses(State(totals0, ledger0), ids, es)
  {
    var totals, ledger := totals0, ledger0;
    var j := 0;
    while j < |es|
      invariant 0 <= j <= |es|
      invariant ApplyExpenses(State(totals0, ledger0), ids, es[..j]) == Ok(State(totals, ledger))
    {
      assert es[..j + 1][..j] == es[..j];
      var next := ApplySplitsLoop(ids, es[j].paidBy, es[j].splits, totals, ledger);
      if next.Err? {
        assert !ExpensesResolve(ids, es) by { assert es[j] in es; }
        return Err(TypeError);
      }
      totals, ledger := next.value.totals, next.value.ledger;
      j := j + 1;
    }
    assert es[..j] == es;
    r := Ok(State(totals, ledger));
  }

  /** The body of `for (const s of settlements)` for a payer among the members: the
      payer's total goes up, the receiver's total and `ledger[paidBy][paidTo]` go down. */
  method BookSettlement(ids: seq<UserId>, s: Settlement, totals0: Totals, ledger0: Ledger)
    returns (totals: Totals, ledger: Ledger)
    requires WellFormed(State(totals0, ledger0), ids) && s.paidBy in ids
    ensures ApplySettlement(State(totals0, ledger0), ids, s) == Ok(State(totals, ledger))
  {
    totals, ledger := totals0, ledger0;
    totals := totals[s.paidBy := totals[s.paidBy] + s.amount];
    if s.paidTo in ids {
      totals := totals[s.paidTo := totals[s.paidTo] - s.amount];
    }
    if s.paidTo in ids && s.paidTo != s.paidBy {
      ledger := ledger[(s.paidBy, s.paidTo) := ledger[(s.paidBy, s.paidTo)] - s.amount];
    }
    if s.paidTo == s.paidBy {
      assert totals == totals0;
    } else if s.paidTo in ids {
      assert totals == Moved(State(totals0, ledger0), s.paidBy, s.paidTo, -s.amount).totals;
    }
  }

  lemma SettlementsSnoc(st0: State, ids: seq<UserId>, ss: seq<Settlement>, k: int, st: State)
    requires WellFormed(st0, ids) && 0 <= k < |ss|
    requires ApplySettlements(st0, ids, ss[..k]) == Ok(st)
    ensures WellFormed(st, ids)
    ensures ApplySettlements(st0, ids, ss[..k + 1]) == ApplySettlement(st, ids, ss[k])
  {
    assert ss[..k + 1][..k] == ss[..k];
  }

  /** `for (const s of settlements)` */
  method ApplySettlementsLoop(ids: seq<UserId>, ss: seq<Settlement>, totals0: Totals, ledger0: Ledger)
    returns (r: Result<State>)
    requires WellFormed(State(totals0, ledger0), ids)
    ensures r == ApplySettlements(State(totals0, ledger0), ids, ss)
  {
    var totals, ledger := totals0, ledger0;
    var k := 0;
    while k < |ss|
      invariant 0 <= k <= |ss|
      invariant ApplySettlements(State(totals0, ledger0), ids, ss[..k]) == Ok(State(totals, ledger))
    {
      var s := ss[k];
      if s.paidBy !in ids {
        assert ss[k] in ss;
        return Err(TypeError);
      }
      SettlementsSnoc(State(totals0, ledger0), ids, ss, k, State(totals, ledger));
      totals, ledger := BookSettlement(ids, s, totals, ledger);
      k := k + 1;
    }
    assert ss[..k] == ss;
    r := Ok(State(totals, ledger));
  }

  // ---------------------------------------------------------------------------
  // Netting each pair

  function Swap(p: (UserId, UserId)): (UserId, UserId) {
    (p.1, p.0)
  }

  /** The netted value of cell `p`: what is left of it after the cell opposite. */
  function Net(l: Ledger, p: (UserId, UserId)): int
    requires p in l && Swap(p) in l
  {
    Max0(l[p] - l[Swap(p)])
  }

  /** After netting, of the two cells of a pair only the excess of one over the other
      is left, on that side; the other cell is 0. */
  function Normalised(l: Ledger): (r: Ledger)
    ensures r.Keys == l.Keys
    ensures forall p :: p in r && Swap(p) in r ==>
      && r[p] >= 0
      && (r[p] == 0 || r[Swap(p)] == 0)
      && r[p] - r[Swap(p)] == l[p] - l[Swap(p)]
  {
    map p | p in l :: if Swap(p) in l then Net(l, p) else l[p]
  }

  /** One visit of the pair `a < b`: the difference goes to the side that owes it. */
  function SettlePair(l: Ledger, a: UserId, b: UserId): Ledger
    requires (a, b) in l && (b, a) in l
  {
    var diff := l[(a, b)] - l[(b, a)];
    if diff > 0 then l[(a, b) := diff][(b, a) := 0]
    else if diff < 0 then l[(a, b) := 0][(b, a) := -diff]
    else l[(a, b) := 0][(b, a) := 0]
  }

  function Lo(p: (UserId, UserId)): UserId {
    if p.0 < p.1 then p.0 else p.1
  }

  function Hi(p: (UserId, UserId)): UserId {
    if p.0 < p.1 then p.1 else p.0
  }

  /** Whether the nested loop has visited the pair of `p` before row `i`, column `j`. */
  predicate Visited(p: (UserId, UserId), ids: seq<UserId>, i: int, j: int)
    requires 0 <= i <= |ids| && 0 <= j <= |ids|
  {
    Lo(p) in ids[..i] || (i < |ids| && Lo(p) == ids[i] && Hi(p) in ids[..j])
  }

  /** The loop invariant of the netting: visited cells hold their netted value, the
      others their value before netting. */
  predicate NettedUpTo(l: Ledger, l0: Ledger, ids: seq<UserId>, i: int, j: int)
    requires 0 <= i <= |ids| && 0 <= j <= |ids|
    requires LedgerOver(l0, ids)
  {
    l.Keys == l0.Keys && forall p :: p in l0 ==> l[p] == if Visited(p, ids, i, j) then Net(l0, p) else l0[p]
  }

  /** Netting a pair whose cells are both raw or both netted gives the netted cells. */
  lemma SettleNetted(l0: Ledger, before: Ledger, a: UserId, b: UserId)
    requires (a, b) in l0 && (b, a) in l0 && (a, b) in before && (b, a) in before
    requires (before[(a, b)] == l0[(a, b)] && before[(b, a)] == l0[(b, a)])
          || (before[(a, b)] == Net(l0, (a, b)) && before[(b, a)] == Net(l0, (b, a)))
    requires a != b
    ensures SettlePair(before, a, b)[(a, b)] == Net(l0, (a, b))
    ensures SettlePair(before, a, b)[(b, a)] == Net(l0, (b, a))
  {
  }

  lemma NormaliseStep(l0: Ledger, before: Ledger, after: Ledger, ids: seq<UserId>, i: int, j: int)
    requires LedgerOver(l0, ids)
    requires 0 <= i < |ids| && 0 <= j < |ids|
    requires NettedUpTo(before, l0, ids, i, j)
    requires ids[i] < ids[j] ==> (ids[i], ids[j]) in before && (ids[j], ids[i]) in before
                                 && after == SettlePair(before, ids[i], ids[j])
    requires ids[i] >= ids[j] ==> after == before
    ensures NettedUpTo(after, l0, ids, i, j + 1)
  {
    assert ids[..j + 1] == ids[..j] + [ids[j]];
    var a, b := ids[i], ids[j];
    if a < b {
      assert Visited((a, b), ids, i, j) == Visited((b, a), ids, i, j);
      SettleNetted(l0, before, a, b);
    }
    forall p | p in l0
      ensures after[p] == if Visited(p, ids, i, j + 1) then Net(l0, p) else l0[p]
    {
      if !(a < b && (p == (a, b) || p == (b, a))) {
        assert p.0 != p.1;
        assert after[p] == before[p];
        assert Visited(p, ids, i, j + 1) == Visited(p, ids, i, j);
      }
    }
  }

  /** The body of the inner `ids.forEach` for `a < b`: the difference goes to the side
      that owes it, the other cell becomes 0. */
  method NetPair(ledger0: Ledger, a: UserId, b: UserId) returns (ledger: Ledger)
    requires (a, b) in ledger0 && (b, a) in ledger0
    ensures ledger == SettlePair(ledger0, a, b)
  {
    ledger := ledger0;
    var diff := ledger[(a, b)] - ledger[(b, a)];
    if diff > 0 {
      ledger := ledger[(a, b) := diff][(b, a) := 0];
    } else if diff < 0 {
      ledger := ledger[(a, b) := 0][(b, a) := -diff];
    } else {
      ledger := ledger[(a, b) := 0][(b, a) := 0];
    }
  }

  /** The nested `ids.forEach` that nets every pair `a < b`; it equals the closed form. */
  method NormaliseLoop(ids: seq<UserId>, ledger0: Ledger) returns (ledger: Ledger)
    requires LedgerOver(ledger0, ids)
    ensures ledger == Normalised(ledger0)
  {
    ledger := ledger0;
    var i := 0;
    while i < |ids|
      invariant 0 <= i <= |ids|
      invariant NettedUpTo(ledger, ledger0, ids, i, 0)
    {
      var j := 0;
      while j < |ids|
        invariant 0 <= j <= |ids|
        invariant NettedUpTo(ledger, ledger0, ids, i, j)
      {
        var a, b := ids[i], ids[j];
        ghost var before := ledger;
        if a < b {
          assert (a, b) in Pairs(ids) && (b, a) in Pairs(ids);
          ledger := NetPair(ledger, a, b);
        }
        NormaliseStep(ledger0, before, ledger, ids, i, j);
        j := j + 1;
      }
      NextRow(ledger, ledger0, ids, i);
      i := i + 1;
    }
    NettedAll(ledger, ledger0, ids);
  }

  lemma NextRow(l: Ledger, l0: Ledger, ids: seq<UserId>, i: int)
    requires LedgerOver(l0, ids)
    requires 0 <= i < |ids|
    requires NettedUpTo(l, l0, ids, i, |ids|)
    ensures NettedUpTo(l, l0, ids, i + 1, 0)
  {
    assert ids[..i + 1] == ids[..i] + [ids[i]];
    assert ids[..|ids|] == ids;
    forall p | p in l0
      ensures Visited(p, ids, i, |ids|) == Visited(p, ids, i + 1, 0)
    {
      assert Hi(p) in ids;
    }
  }

  lemma NettedAll(l: Ledger, l0: Ledger, ids: seq<UserId>)
    requires LedgerOver(l0, ids)
    requires NettedUpTo(l, l0, ids, |ids|, 0)
    ensures l == Normalised(l0)
  {
    assert ids[..|ids|] == ids;
    forall p | p in l0
      ensures l[p] == Normalised(l0)[p]
    {
      assert Lo(p) in ids;
      assert Visited(p, ids, |ids|, 0);
    }
  }

  // ---------------------------------------------------------------------------
  // The result

  /** `{to, amount}` in `owes`, `{from, amount}` in `owedBy`. */
  datatype Owing = Owing(other: UserId, amount: int)

  function AmountOf(): Owing -> int {
    (o: Owing) => o.amount
  }

  /** `Object.entries(ledger[m]).filter(([, v]) => v > 0)`: the positive cells of the row
      of `m`, in the order its keys were created. */
  function Owes(l: Ledger, row: seq<UserId>, m: UserId): (r: seq<Owing>)
    ensures forall k :: 0 <= k < |r| ==> r[k].other in row && (m, r[k].other) in l
                                         && r[k].amount == l[(m, r[k].other)] > 0
    ensures forall b :: b in row && (m, b) in l && l[(m, b)] > 0 ==> Owing(b, l[(m, b)]) in r
  {
    if row == [] then []
    else
      var b := row[|row| - 1];
      Owes(l, row[..|row| - 1], m) + if (m, b) in l && l[(m, b)] > 0 then [Owing(b, l[(m, b)])] else []
  }

  /** `ids.filter((other) => ledger[other][m] > 0)`: the positive cells of the column of `m`. */
  function OwedBy(l: Ledger, ids: seq<UserId>, m: UserId): (r: seq<Owing>)
    ensures forall k :: 0 <= k < |r| ==> r[k].other in ids && (r[k].other, m) in l
                                         && r[k].amount == l[(r[k].other, m)] > 0
    ensures forall o :: o in ids && (o, m) in l && l[(o, m)] > 0 ==> Owing(o, l[(o, m)]) in r
  {
    if ids == [] then []
    else
      var o := ids[|ids| - 1];
      OwedBy(l, ids[..|ids| - 1], m) + if (o, m) in l && l[(o, m)] > 0 then [Owing(o, l[(o, m)])] else []
  }

  /** One entry of `balances` (the member document's other fields are left out). */
  datatype MemberBalance = MemberBalance(id: UserId, totalBalance: int, owes: seq<Owing>, owedBy: seq<Owing>)

  function TotalBalanceOf(): MemberBalance -> int {
    (b: MemberBalance) => b.totalBalance
  }

  /** `memberDetails.map(...)` over the netted tables: the row of a member lists the
      keys of its ledger row, which are the distinct ids in order. */
  function Balances(st: State, ids: seq<UserId>, rows: seq<UserId>): (r: seq<MemberBalance>)
    requires WellFormed(st, ids)
    requires forall m :: m in rows ==> m in ids
    ensures |r| == |rows|
    ensures forall k :: 0 <= k < |r| ==> r[k].id == rows[k] && r[k].totalBalance == st.totals[rows[k]]
                                         && r[k].owes == Owes(st.ledger, Dedup(ids), rows[k])
                                         && r[k].owedBy == OwedBy(st.ledger, ids, rows[k])
  {
    if rows == [] then []
    else
      var m := rows[|rows| - 1];
      Balances(st, ids, rows[..|rows| - 1])
        + [MemberBalance(m, st.totals[m], Owes(st.ledger, Dedup(ids), m), OwedBy(st.ledger, ids, m))]
  }

  datatype GroupLedger = GroupLedger(
    group: Group,
    members: seq<UserId>,
    expenses: seq<Expense>,
    settlements: seq<Settlement>,
    balances: seq<MemberBalance>)

  /** getGroupExpenses for the signed-in user `me`. */
  function GroupLedgerOf(me: UserId, gid: GroupId, groups: seq<Group>, users: seq<UserId>,
                         expenses: seq<Expense>, settlements: seq<Settlement>): (r: Result<GroupLedger>)
    ensures (r.Err? && r.error == GroupNotFound) <==> FindGroup(groups, gid).None?
    ensures (r.Err? && r.error == NotGroupMember) <==>
      FindGroup(groups, gid).Some? && !HasBareMember(FindGroup(groups, gid).value, me)
    ensures FindGroup(groups, gid).Some? && HasBareMember(FindGroup(groups, gid).value, me) ==>
      (r.Ok? <==>
        && MemberIds(FindGroup(groups, gid).value.members, users).Ok?
        && ExpensesResolve(MemberIds(FindGroup(groups, gid).value.members, users).value, Filter(expenses, InGroup(gid)))
        && forall s :: s in Filter(settlements, SettledInGroup(gid)) ==>
             s.paidBy in MemberIds(FindGroup(groups, gid).value.members, users).value)
    ensures r.Ok? ==> r.value.expenses == Filter(expenses, InGroup(gid))
                      && r.value.settlements == Filter(settlements, SettledInGroup(gid))
                      && |r.value.balances| == |r.value.members| == |r.value.group.members|
  {
    match FindGroup(groups, gid)
    case None => Err(GroupNotFound)
    case Some(g) =>
      if !HasBareMember(g, me) then Err(NotGroupMember)
      else
        var es := Filter(expenses, InGroup(gid));
        var ss := Filter(settlements, SettledInGroup(gid));
        match MemberIds(g.members, users)
        case Err(e) => Err(e)
        case Ok(ids) =>
          match ApplyExpenses(ZeroState(ids), ids, es)
          case Err(e) => Err(e)
          case Ok(st1) =>
            match ApplySettlements(st1, ids, ss)
            case Err(e) => Err(e)
            case Ok(st2) =>
              var netted := State(st2.totals, Normalised(st2.ledger));
              Ok(GroupLedger(g, ids, es, ss, Balances(netted, ids, ids)))
  }

  /** The handler. */
  method GetGroupExpenses(me: UserId, gid: GroupId, groups: seq<Group>, users: seq<UserId>,
                          expenses: seq<Expense>, settlements: seq<Settlement>) returns (r: Result<GroupLedger>)
    ensures r == GroupLedgerOf(me, gid, groups, users, expenses, settlements)
  {
    var grp := FindGroup(groups, gid);
    if grp.None? {
      return Err(GroupNotFound);
    }
    var g := grp.value;
    if !HasBareMember(g, me) {
      return Err(NotGroupMember);
    }
    var es := Filter(expenses, InGroup(gid));
    var ss := Filter(settlements, SettledInGroup(gid));
    var resolved := MemberIds(g.members, users);
    if resolved.Err? {
      return Err(resolved.error);
    }
    var ids := resolved.value;
    var totals := map m | m in Members(ids) :: 0;
    var ledger := ZeroLedger(ids);
    var booked := ApplyExpensesLoop(ids, es, totals, ledger);
    if booked.Err? {
      return Err(booked.error);
    }
    var settled := ApplySettlementsLoop(ids, ss, booked.value.totals, booked.value.ledger);
    if settled.Err? {
      return Err(settled.error);
    }
    totals := settled.value.totals;
    ledger := NormaliseLoop(ids, settled.value.ledger);
    r := Ok(GroupLedger(g, ids, es, ss, Balances(State(totals, ledger), ids, ids)));
  }

  // ---------------------------------------------------------------------------
  // What the tables mean

  function TotalIn(t: Totals): UserId -> int {
    (m: UserId) => if m in t then t[m] else 0
  }

  /** What `o` owes `m` less what `m` owes `o`, read off the ledger. */
  function Flow(l: Ledger, m: UserId): UserId -> int {
    (o: UserId) => if (o, m) in l && (m, o) in l then l[(o, m)] - l[(m, o)] else 0
  }

  /** The two invariants the bookkeeping keeps: each member's total is what the others
      owe them less what they owe the others, and the totals sum to zero. */
  predicate Books(st: State, ks: seq<UserId>) {
    && (forall m :: m in st.totals ==> st.totals[m] == SumBy(ks, Flow(st.ledger, m)))
    && SumBy(ks, TotalIn(st.totals)) == 0
  }

  /** `ks` lists every member exactly once. */
  ghost predicate Enumerates(ks: seq<UserId>, ids: seq<UserId>) {
    Distinct(ks) && forall m :: m in ks <==> m in ids
  }

  lemma ZeroBooks(ids: seq<UserId>, ks: seq<UserId>)
    requires Enumerates(ks, ids)
    ensures Books(ZeroState(ids), ks)
  {
    var st := ZeroState(ids);
    SumByZero(ks, TotalIn(st.totals));
    forall m | m in st.totals
      ensures st.totals[m] == SumBy(ks, Flow(st.ledger, m))
    {
      SumByZero(ks, Flow(st.ledger, m));
    }
  }

  /** Adding `v` to the cell `(c0, c1)` changes the flows of `c1` by `v` and of `c0` by `-v`. */
  lemma FlowMove(l: Ledger, l1: Ledger, ks: seq<UserId>, c0: UserId, c1: UserId, v: int, m: UserId)
    requires Distinct(ks) && c0 in ks && c1 in ks && c0 != c1 && (c0, c1) in l && (c1, c0) in l
    requires l1 == l[(c0, c1) := l[(c0, c1)] + v]
    ensures SumBy(ks, Flow(l1, m)) == SumBy(ks, Flow(l, m)) + if m == c1 then v else if m == c0 then -v else 0
  {
    if m == c1 {
      SumByPoint(ks, c0, Flow(l, m), Flow(l1, m));
    } else if m == c0 {
      SumByPoint(ks, c1, Flow(l, m), Flow(l1, m));
    } else {
      SumBySame(ks, Flow(l, m), Flow(l1, m));
    }
  }

  /** Booking a cell keeps the books. */
  lemma MovedKeepsBooks(st: State, ks: seq<UserId>, c0: UserId, c1: UserId, v: int)
    requires Distinct(ks) && c0 in ks && c1 in ks && c0 != c1
    requires c0 in st.totals && c1 in st.totals && (c0, c1) in st.ledger && (c1, c0) in st.ledger
    requires Books(st, ks)
    ensures Books(Moved(st, c0, c1, v), ks)
  {
    var st1 := Moved(st, c0, c1, v);
    var mid := st.totals[c1 := st.totals[c1] + v];
    SumByPoint(ks, c1, TotalIn(st.totals), TotalIn(mid));
    SumByPoint(ks, c0, TotalIn(mid), TotalIn(st1.totals));
    forall m | m in st1.totals
      ensures st1.totals[m] == SumBy(ks, Flow(st1.ledger, m))
    {
      FlowMove(st.ledger, st1.ledger, ks, c0, c1, v, m);
    }
  }

  lemma SplitKeepsBooks(st: State, ids: seq<UserId>, ks: seq<UserId>, payer: UserId, s: Split)
    requires Enumerates(ks, ids)
    requires WellFormed(st, ids) && payer in ids && Books(st, ks)
    requires ApplySplit(st, ids, payer, s).Ok?
    ensures Books(ApplySplit(st, ids, payer, s).value, ks)
  {
    if s.userId != payer {
      MovedKeepsBooks(st, ks, s.userId, payer, s.amount);
    }
  }

  lemma {:induction false} SplitsKeepBooks(st: State, ids: seq<UserId>, ks: seq<UserId>, payer: UserId, splits: seq<Split>)
    requires Enumerates(ks, ids)
    requires WellFormed(st, ids) && payer in ids && Books(st, ks)
    requires ApplySplits(st, ids, payer, splits).Ok?
    ensures Books(ApplySplits(st, ids, payer, splits).value, ks)
  {
    if splits != [] {
      var n := |splits| - 1;
      SplitsKeepBooks(st, ids, ks, payer, splits[..n]);
      SplitKeepsBooks(ApplySplits(st, ids, payer, splits[..n]).value, ids, ks, payer, splits[n]);
    }
  }

  lemma {:induction false} ExpensesKeepBooks(st: State, ids: seq<UserId>, ks: seq<UserId>, es: seq<Expense>)
    requires Enumerates(ks, ids)
    requires WellFormed(st, ids) && Books(st, ks)
    requires forall e :: e in es ==> e.paidBy in ids
    requires ApplyExpenses(st, ids, es).Ok?
    ensures Books(ApplyExpenses(st, ids, es).value, ks)
  {
    if es != [] {
      var n := |es| - 1;
      ExpensesKeepBooks(st, ids, ks, es[..n]);
      assert es[n] in es;
      SplitsKeepBooks(ApplyExpenses(st, ids, es[..n]).value, ids, ks, es[n].paidBy, es[n].splits);
    }
  }

  lemma SettlementKeepsBooks(st: State, ids: seq<UserId>, ks: seq<UserId>, s: Settlement)
    requires Enumerates(ks, ids)
    requires WellFormed(st, ids) && s.paidTo in ids && Books(st, ks)
    requires ApplySettlement(st, ids, s).Ok?
    ensures Books(ApplySettlement(st, ids, s).value, ks)
  {
    if s.paidTo != s.paidBy {
      var x, y, v := s.paidBy, s.paidTo, -s.amount;
      assert ApplySettlement(st, ids, s) == Ok(Moved(st, x, y, v));
      MovedKeepsBooks(st, ks, x, y, v);
    }
  }

  lemma {:induction false} SettlementsKeepBooks(st: State, ids: seq<UserId>, ks: seq<UserId>, ss: seq<Settlement>)
    requires Enumerates(ks, ids)
    requires WellFormed(st, ids) && Books(st, ks)
    requires forall s :: s in ss ==> s.paidTo in ids
    requires ApplySettlements(st, ids, ss).Ok?
    ensures Books(ApplySettlements(st, ids, ss).value, ks)
  {
    if ss != [] {
      var n := |ss| - 1;
      SettlementsKeepBooks(st, ids, ks, ss[..n]);
      assert ss[n] in ss;
      SettlementKeepsBooks(ApplySettlements(st, ids, ss[..n]).value, ids, ks, ss[n]);
    }
  }

  /** Netting keeps every pair's difference, so it keeps the books. */
  lemma NettingKeepsBooks(st: State, ids: seq<UserId>, ks: seq<UserId>)
    requires Enumerates(ks, ids)
    requires WellFormed(st, ids) && Books(st, ks)
    ensures Books(State(st.totals, Normalised(st.ledger)), ks)
  {
    var n := Normalised(st.ledger);
    forall m | m in st.totals
      ensures st.totals[m] == SumBy(ks, Flow(n, m))
    {
      SumBySame(ks, Flow(st.ledger, m), Flow(n, m));
    }
  }

  // ---------------------------------------------------------------------------
  // Each cell in closed form

  function ShareOf(a: UserId): Split -> int {
    (s: Split) => if s.userId == a then s.amount else 0
  }

  /** What `a` comes to owe `b` through one expense: `a`'s splits of an expense `b` paid. */
  function OwedThrough(a: UserId, b: UserId): Expense -> int {
    (e: Expense) => if e.paidBy == b then SumBy(e.splits, ShareOf(a)) else 0
  }

  function RepaidThrough(a: UserId, b: UserId): Settlement -> int {
    (s: Settlement) => if s.paidBy == a && s.paidTo == b then s.amount else 0
  }

  /** The gross debt of `a` to `b` in a group's records: `a`'s shares of what `b` paid,
      less what `a` paid back to `b`. */
  function Debt(es: seq<Expense>, ss: seq<Settlement>, a: UserId, b: UserId): int {
    SumBy(es, OwedThrough(a, b)) - SumBy(ss, RepaidThrough(a, b))
  }

  /** What `a` owes `b` once the debts of the pair are set against each other. */
  function NetDebt(es: seq<Expense>, ss: seq<Settlement>, a: UserId, b: UserId): int {
    Max0(Debt(es, ss, a, b) - Debt(es, ss, b, a))
  }

  lemma SplitCells(st: State, ids: seq<UserId>, payer: UserId, s: Split)
    requires WellFormed(st, ids) && ApplySplit(st, ids, payer, s).Ok?
    ensures forall p :: p in st.ledger ==>
      ApplySplit(st, ids, payer, s).value.ledger[p] == st.ledger[p] + if p.1 == payer then ShareOf(p.0)(s) else 0
  {
  }

  lemma {:induction false} SplitsCells(st: State, ids: seq<UserId>, payer: UserId, splits: seq<Split>)
    requires WellFormed(st, ids) && ApplySplits(st, ids, payer, splits).Ok?
    ensures forall p :: p in st.ledger ==>
      ApplySplits(st, ids, payer, splits).value.ledger[p]
        == st.ledger[p] + if p.1 == payer then SumBy(splits, ShareOf(p.0)) else 0
  {
    if splits != [] {
      var n := |splits| - 1;
      SplitsCells(st, ids, payer, splits[..n]);
      SplitCells(ApplySplits(st, ids, payer, splits[..n]).value, ids, payer, splits[n]);
    }
  }

  lemma {:induction false} ExpensesCells(st: State, ids: seq<UserId>, es: seq<Expense>)
    requires WellFormed(st, ids) && ApplyExpenses(st, ids, es).Ok?
    ensures forall p :: p in st.ledger ==>
      ApplyExpenses(st, ids, es).value.ledger[p] == st.ledger[p] + SumBy(es, OwedThrough(p.0, p.1))
  {
    if es != [] {
      var n := |es| - 1;
      ExpensesCells(st, ids, es[..n]);
      SplitsCells(ApplyExpenses(st, ids, es[..n]).value, ids, es[n].paidBy, es[n].splits);
    }
  }

  lemma {:induction false} SettlementsCells(st: State, ids: seq<UserId>, ss: seq<Settlement>)
    requires WellFormed(st, ids) && ApplySettlements(st, ids, ss).Ok?
    ensures forall p :: p in st.ledger ==>
      ApplySettlements(st, ids, ss).value.ledger[p] == st.ledger[p] - SumBy(ss, RepaidThrough(p.0, p.1))
  {
    if ss != [] {
      var n := |ss| - 1;
      SettlementsCells(st, ids, ss[..n]);
    }
  }

  // ---------------------------------------------------------------------------
  // Properties of the result

  /** The steps of GroupLedgerOf when it succeeds. */
  lemma Unfold(me: UserId, gid: GroupId, groups: seq<Group>, users: seq<UserId>,
               expenses: seq<Expense>, settlements: seq<Settlement>)
    returns (ids: seq<UserId>, st: State)
    requires GroupLedgerOf(me, gid, groups, users, expenses, settlements).Ok?
    ensures var r := GroupLedgerOf(me, gid, groups, users, expenses, settlements).value;
      && ids == r.members
      && WellFormed(st, ids)
      && ApplyExpenses(ZeroState(ids), ids, r.expenses).Ok?
      && ApplySettlements(ApplyExpenses(ZeroState(ids), ids, r.expenses).value, ids, r.settlements) == Ok(st)
      && r.balances == Balances(State(st.totals, Normalised(st.ledger)), ids, ids)
  {
    var g := FindGroup(groups, gid).value;
    ids := MemberIds(g.members, users).value;
    var st1 := ApplyExpenses(ZeroState(ids), ids, Filter(expenses, InGroup(gid))).value;
    st := ApplySettlements(st1, ids, Filter(settlements, SettledInGroup(gid))).value;
  }

  /** Every expense was paid, and every settlement received, by a member. */
  predicate PaidAmongMembers(r: GroupLedger) {
    && (forall e :: e in r.expenses ==> e.paidBy in r.members)
    && (forall s :: s in r.settlements ==> s.paidTo in r.members)
  }

  lemma {:induction false} BalancesTotal(st: State, ids: seq<UserId>, rows: seq<UserId>)
    requires WellFormed(st, ids) && forall m :: m in rows ==> m in ids
    ensures SumBy(Balances(st, ids, rows), TotalBalanceOf()) == SumBy(rows, TotalIn(st.totals))
  {
    if rows != [] {
      var n := |rows| - 1;
      BalancesTotal(st, ids, rows[..n]);
      SumByAppend(Balances(st, ids, rows[..n]), Balances(st, ids, rows)[n], TotalBalanceOf());
      assert Balances(st, ids, rows) == Balances(st, ids, rows[..n]) + [Balances(st, ids, rows)[n]];
    }
  }

  /** When the group lists each member once and everything was paid among members, the
      members' total balances add up to zero. */
  lemma LedgerZeroSum(me: UserId, gid: GroupId, groups: seq<Group>, users: seq<UserId>,
                      expenses: seq<Expense>, settlements: seq<Settlement>)
    requires GroupLedgerOf(me, gid, groups, users, expenses, settlements).Ok?
    requires Distinct(GroupLedgerOf(me, gid, groups, users, expenses, settlements).value.members)
    requires PaidAmongMembers(GroupLedgerOf(me, gid, groups, users, expenses, settlements).value)
    ensures SumBy(GroupLedgerOf(me, gid, groups, users, expenses, settlements).value.balances, TotalBalanceOf()) == 0
  {
    var r := GroupLedgerOf(me, gid, groups, users, expenses, settlements).value;
    var ids, st := Unfold(me, gid, groups, users, expenses, settlements);
    var st1 := ApplyExpenses(ZeroState(ids), ids, r.expenses).value;
    ZeroBooks(ids, ids);
    ExpensesKeepBooks(ZeroState(ids), ids, ids, r.expenses);
    SettlementsKeepBooks(st1, ids, ids, r.settlements);
    BalancesTotal(State(st.totals, Normalised(st.ledger)), ids, ids);
  }

  function InOf(l: Ledger, m: UserId): UserId -> int {
    (o: UserId) => if (o, m) in l && l[(o, m)] > 0 then l[(o, m)] else 0
  }

  function OutOf(l: Ledger, m: UserId): UserId -> int {
    (b: UserId) => if (m, b) in l && l[(m, b)] > 0 then l[(m, b)] else 0
  }

  lemma {:induction false} OwesSum(l: Ledger, row: seq<UserId>, m: UserId)
    ensures SumBy(Owes(l, row, m), AmountOf()) == SumBy(row, OutOf(l, m))
  {
    if row != [] {
      var n := |row| - 1;
      OwesSum(l, row[..n], m);
      var b := row[n];
      SumByConcat(Owes(l, row[..n], m), if (m, b) in l && l[(m, b)] > 0 then [Owing(b, l[(m, b)])] else [],
                  AmountOf());
    }
  }

  lemma {:induction false} OwedBySum(l: Ledger, ids: seq<UserId>, m: UserId)
    ensures SumBy(OwedBy(l, ids, m), AmountOf()) == SumBy(ids, InOf(l, m))
  {
    if ids != [] {
      var n := |ids| - 1;
      OwedBySum(l, ids[..n], m);
      var o := ids[n];
      SumByConcat(OwedBy(l, ids[..n], m), if (o, m) in l && l[(o, m)] > 0 then [Owing(o, l[(o, m)])] else [],
                  AmountOf());
    }
  }

  /** What holds of one member's row once the books are netted. */
  lemma RowBalance(t: Totals, l: Ledger, ids: seq<UserId>, m: UserId)
    requires Distinct(ids) && m in t && LedgerOver(l, ids)
    requires Books(State(t, Normalised(l)), ids)
    ensures t[m] == SumBy(OwedBy(Normalised(l), ids, m), AmountOf()) - SumBy(Owes(Normalised(l), ids, m), AmountOf())
  {
    var n := Normalised(l);
    OwesSum(n, ids, m);
    OwedBySum(n, ids, m);
    forall o | o in ids
      ensures InOf(n, m)(o) == Flow(n, m)(o) + OutOf(n, m)(o)
    {
      assert Swap((o, m)) == (m, o) && Swap((m, o)) == (o, m);
      NettedTerm(n, m, o);
    }
    SumByAdd(ids, Flow(n, m), OutOf(n, m), InOf(n, m));
  }

  /** On a netted pair, what `o` owes `m` is the pair's net plus what `m` owes `o`. */
  lemma NettedTerm(n: Ledger, m: UserId, o: UserId)
    requires (o, m) in n <==> (m, o) in n
    requires (o, m) in n ==> n[(o, m)] >= 0 && n[(m, o)] >= 0 && (n[(o, m)] == 0 || n[(m, o)] == 0)
    ensures InOf(n, m)(o) == Flow(n, m)(o) + OutOf(n, m)(o)
  {
  }

  /** The books hold once a member list's expenses and settlements are booked and
      the ledger is netted. */
  lemma FinalBooks(ids: seq<UserId>, es: seq<Expense>, ss: seq<Settlement>, st: State)
    requires Distinct(ids)
    requires forall e :: e in es ==> e.paidBy in ids
    requires forall s :: s in ss ==> s.paidTo in ids
    requires ApplyExpenses(ZeroState(ids), ids, es).Ok?
    requires ApplySettlements(ApplyExpenses(ZeroState(ids), ids, es).value, ids, ss) == Ok(st)
    ensures WellFormed(st, ids) && Books(State(st.totals, Normalised(st.ledger)), ids)
  {
    var st1 := ApplyExpenses(ZeroState(ids), ids, es).value;
    ZeroBooks(ids, ids);
    ExpensesKeepBooks(ZeroState(ids), ids, ids, es);
    SettlementsKeepBooks(st1, ids, ids, ss);
    NettingKeepsBooks(st, ids, ids);
  }

  /** Every row of the balances over books that hold nets to the member's total. */
  lemma RowsBalance(st: State, ids: seq<UserId>)
    requires Distinct(ids) && WellFormed(st, ids)
    requires Books(State(st.totals, Normalised(st.ledger)), ids)
    ensures var bs := Balances(State(st.totals, Normalised(st.ledger)), ids, ids);
      forall k :: 0 <= k < |bs| ==>
        bs[k].totalBalance == SumBy(bs[k].owedBy, AmountOf()) - SumBy(bs[k].owes, AmountOf())
  {
    var bs := Balances(State(st.totals, Normalised(st.ledger)), ids, ids);
    DedupDistinct(ids);
    forall k | 0 <= k < |bs|
      ensures bs[k].totalBalance == SumBy(bs[k].owedBy, AmountOf()) - SumBy(bs[k].owes, AmountOf())
    {
      RowBalance(st.totals, st.ledger, ids, ids[k]);
    }
  }

  lemma LedgerBalances(r: GroupLedger, st: State)
    requires Distinct(r.members) && PaidAmongMembers(r)
    requires ApplyExpenses(ZeroState(r.members), r.members, r.expenses).Ok?
    requires ApplySettlements(ApplyExpenses(ZeroState(r.members), r.members, r.expenses).value,
                              r.members, r.settlements) == Ok(st)
    requires r.balances == Balances(State(st.totals, Normalised(st.ledger)), r.members, r.members)
    ensures forall k :: 0 <= k < |r.balances| ==>
      r.balances[k].totalBalance == SumBy(r.balances[k].owedBy, AmountOf()) - SumBy(r.balances[k].owes, AmountOf())
  {
    FinalBooks(r.members, r.expenses, r.settlements, st);
    RowsBalance(st, r.members);
  }

  /** Under the same conditions, each member's total balance is what the members listed
      in `owedBy` owe them less what they owe those listed in `owes`. */
  lemma BalanceIsOwedLessOwing(me: UserId, gid: GroupId, groups: seq<Group>, users: seq<UserId>,
                               expenses: seq<Expense>, settlements: seq<Settlement>)
    requires GroupLedgerOf(me, gid, groups, users, expenses, settlements).Ok?
    requires Distinct(GroupLedgerOf(me, gid, groups, users, expenses, settlements).value.members)
    requires PaidAmongMembers(GroupLedgerOf(me, gid, groups, users, expenses, settlements).value)
    ensures var bs := GroupLedgerOf(me, gid, groups, users, expenses, settlements).value.balances;
      forall k :: 0 <= k < |bs| ==>
        bs[k].totalBalance == SumBy(bs[k].owedBy, AmountOf()) - SumBy(bs[k].owes, AmountOf())
  {
    var r := GroupLedgerOf(me, gid, groups, users, expenses, settlements).value;
    var ids, st := Unfold(me, gid, groups, users, expenses, settlements);
    LedgerBalances(r, st);
  }

  /** Every cell of the netted ledger is the net debt of its pair. */
  lemma NettedCells(ids: seq<UserId>, es: seq<Expense>, ss: seq<Settlement>, st: State)
    requires ApplyExpenses(ZeroState(ids), ids, es).Ok?
    requires ApplySettlements(ApplyExpenses(ZeroState(ids), ids, es).value, ids, ss) == Ok(st)
    ensures LedgerOver(Normalised(st.ledger), ids)
    ensures forall p :: p in Normalised(st.ledger) ==> Normalised(st.ledger)[p] == NetDebt(es, ss, p.0, p.1)
  {
    var z := ZeroState(ids);
    var st1 := ApplyExpenses(z, ids, es).value;
    ExpensesCells(z, ids, es);
    SettlementsCells(st1, ids, ss);
    var n := Normalised(st.ledger);
    forall p | p in n
      ensures n[p] == NetDebt(es, ss, p.0, p.1)
    {
      assert Swap(p) in st.ledger;
    }
  }

  /** The netted ledger in closed form: every cell is the net debt of its pair. */
  lemma NettedIsNetDebt(me: UserId, gid: GroupId, groups: seq<Group>, users: seq<UserId>,
                        expenses: seq<Expense>, settlements: seq<Settlement>)
    returns (ids: seq<UserId>, n: Ledger)
    requires GroupLedgerOf(me, gid, groups, users, expenses, settlements).Ok?
    ensures var r := GroupLedgerOf(me, gid, groups, users, expenses, settlements).value;
      && ids == r.members && LedgerOver(n, ids)
      && (forall p :: p in n ==> n[p] == NetDebt(r.expenses, r.settlements, p.0, p.1))
      && forall k :: 0 <= k < |r.balances| ==>
           r.balances[k].id == ids[k] && r.balances[k].owes == Owes(n, Dedup(ids), ids[k])
           && r.balances[k].owedBy == OwedBy(n, ids, ids[k])
  {
    var r := GroupLedgerOf(me, gid, groups, users, expenses, settlements).value;
    var st;
    ids, st := Unfold(me, gid, groups, users, expenses, settlements);
    NettedCells(ids, r.expenses, r.settlements, st);
    n := Normalised(st.ledger);
  }

  /** Whatever the records, every entry of `owes` is the net debt of the pair computed
      from the group's expenses and settlements, and every positive net debt of the
      member to another member is listed. */
  lemma OwesIsNetDebt(me: UserId, gid: GroupId, groups: seq<Group>, users: seq<UserId>,
                      expenses: seq<Expense>, settlements: seq<Settlement>)
    requires GroupLedgerOf(me, gid, groups, users, expenses, settlements).Ok?
    ensures var r := GroupLedgerOf(me, gid, groups, users, expenses, settlements).value;
      && (forall k, x :: 0 <= k < |r.balances| && x in r.balances[k].owes ==>
            x.other in r.members && x.amount == NetDebt(r.expenses, r.settlements, r.balances[k].id, x.other) > 0)
      && (forall k, b :: (0 <= k < |r.balances| && b in r.members
            && NetDebt(r.expenses, r.settlements, r.balances[k].id, b) > 0) ==>
            Owing(b, NetDebt(r.expenses, r.settlements, r.balances[k].id, b)) in r.balances[k].owes)
  {
    var r := GroupLedgerOf(me, gid, groups, users, expenses, settlements).value;
    var ids, n := NettedIsNetDebt(me, gid, groups, users, expenses, settlements);
    forall k, b | 0 <= k < |r.balances| && b in r.members
      ensures NetDebt(r.expenses, r.settlements, r.balances[k].id, b) > 0 ==> (r.balances[k].id, b) in n
    {
      assert r.balances[k].id in ids;
    }
  }

  /** The same for `owedBy`: the net debts of other members to this one. */
  lemma OwedByIsNetDebt(me: UserId, gid: GroupId, groups: seq<Group>, users: seq<UserId>,
                        expenses: seq<Expense>, settlements: seq<Settlement>)
    requires GroupLedgerOf(me, gid, groups, users, expenses, settlements).Ok?
    ensures var r := GroupLedgerOf(me, gid, groups, users, expenses, settlements).value;
      && (forall k, x :: 0 <= k < |r.balances| && x in r.balances[k].owedBy ==>
            x.other in r.members && x.amount == NetDebt(r.expenses, r.settlements, x.other, r.balances[k].id) > 0)
      && (forall k, o :: (0 <= k < |r.balances| && o in r.members
            && NetDebt(r.expenses, r.settlements, o, r.balances[k].id) > 0) ==>
            Owing(o, NetDebt(r.expenses, r.settlements, o, r.balances[k].id)) in r.balances[k].owedBy)
  {
    var r := GroupLedgerOf(me, gid, groups, users, expenses, settlements).value;
    var ids, n := NettedIsNetDebt(me, gid, groups, users, expenses, settlements);
    forall k, o | 0 <= k < |r.balances| && o in r.members
      ensures NetDebt(r.expenses, r.settlements, o, r.balances[k].id) > 0 ==> (o, r.balances[k].id) in n
    {
      assert r.balances[k].id in ids;
    }
  }

  // ---------------------------------------------------------------------------
  // The caller's groups (getGroupOrMembers)

  /** `{id, name, description, memberCount}` of one listed group. */
  datatype GroupSummary = GroupSummary(id: GroupId, name: string, description: string, memberCount: nat)

  /** `selectedGroup`, with each member reduced to its id. */
  datatype SelectedGroup = SelectedGroup(id: GroupId, name: string, description: string, createdBy: UserId,
                                         members: seq<UserId>)

  datatype GroupsView = GroupsView(selectedGroup: Option<SelectedGroup>, groups: seq<GroupSummary>)

  /** `g.members.includes(me)` */
  function HasMember(me: UserId): Group -> bool {
    (g: Group) => HasBareMember(g, me)
  }

  function Summary(g: Group): GroupSummary {
    GroupSummary(g.id, g.name, g.description, |g.members|)
  }

  /** `userGroups.map(...)`, one summary per group in order. */
  function Listing(gs: seq<Group>): (r: seq<GroupSummary>)
    ensures |r| == |gs| && forall k :: 0 <= k < |gs| ==> r[k] == Summary(gs[k])
  {
    if gs == [] then [] else Listing(gs[..|gs| - 1]) + [Summary(gs[|gs| - 1])]
  }

  /** The ids of the members that name a user, in order: the others read null and
      are filtered out. */
  function KnownIds(members: seq<Member>, users: seq<UserId>): (r: seq<UserId>)
    requires forall m :: m in members ==> m.Bare?
    ensures |r| <= |members|
    ensures forall u :: u in r <==> Bare(u) in members && u in users
  {
    if members == [] then []
    else
      var m := members[|members| - 1];
      KnownIds(members[..|members| - 1], users) + if m.id in users then [m.id] else []
  }

  /** The member fetch of the selected group: reading a member that is not an id throws. */
  function MemberDetails(members: seq<Member>, users: seq<UserId>): (r: Result<seq<UserId>>)
    ensures r.Ok? <==> forall m :: m in members ==> m.Bare?
    ensures r.Err? ==> r.error == InvalidId
    ensures r.Ok? ==> |r.value| <= |members| && forall u :: u in r.value <==> Bare(u) in members && u in users
  {
    if exists m :: m in members && !m.Bare? then Err(InvalidId) else Ok(KnownIds(members, users))
  }

  /** getGroupOrMembers for the signed-in user `me`. */
  function GroupOrMembers(me: UserId, groupId: Option<GroupId>, groups: seq<Group>, users: seq<UserId>)
    : (r: Result<GroupsView>)
    ensures groupId.None? ==> r.Ok? && r.value.selectedGroup.None?
    ensures r == Err(GroupNotFoundOrNotMember) <==>
      groupId.Some? && forall g :: g in groups && g.id == groupId.value ==> !HasBareMember(g, me)
    ensures r.Err? ==> r.error in {GroupNotFoundOrNotMember, InvalidId}
    ensures r.Ok? ==> |r.value.groups| <= |groups|
    ensures r.Ok? ==> forall x :: x in r.value.groups <==> exists g :: g in groups && HasBareMember(g, me) && x == Summary(g)
    ensures r.Ok? && groupId.Some? ==>
      && r.value.selectedGroup.Some?
      && var sel := r.value.selectedGroup.value;
         && sel.id == groupId.value
         && exists g :: g in groups && g.id == sel.id && HasBareMember(g, me)
                        && sel == SelectedGroup(g.id, g.name, g.description, g.createdBy, sel.members)
                        && forall u :: u in sel.members <==> Bare(u) in g.members && u in users
  {
    var mine := Filter(groups, HasMember(me));
    var listing := Listing(mine);
    assert forall x :: x in listing <==> exists g :: g in mine && x == Summary(g) by {
      forall x | x in listing
        ensures exists g :: g in mine && x == Summary(g)
      {
        var k :| 0 <= k < |listing| && listing[k] == x;
        assert mine[k] in mine;
      }
    }
    match groupId
    case None => Ok(GroupsView(None, listing))
    case Some(id) =>
      match FindGroup(mine, id)
      case None => Err(GroupNotFoundOrNotMember)
      case Some(g) =>
        match MemberDetails(g.members, users)
        case Err(e) => Err(e)
        case Ok(ms) => Ok(GroupsView(Some(SelectedGroup(g.id, g.name, g.description, g.createdBy, ms)), listing))
  }

  /** When group ids are distinct, the group page and the group list refuse the same
      callers: a missing group or a caller outside it. */
  lemma AccessAgrees(me: UserId, gid: GroupId, groups: seq<Group>, users: seq<UserId>,
                     expenses: seq<Expense>, settlements: seq<Settlement>)
    requires forall i, j :: 0 <= i < j < |groups| ==> groups[i].id != groups[j].id
    ensures GroupOrMembers(me, Some(gid), groups, users) == Err(GroupNotFoundOrNotMember) <==>
      && GroupLedgerOf(me, gid, groups, users, expenses, settlements).Err?
      && GroupLedgerOf(me, gid, groups, users, expenses, settlements).error in {GroupNotFound, NotGroupMember}
  {
    var found := FindGroup(groups, gid);
    if found.Some? {
      forall g | g in groups && g.id == gid
        ensures g == found.value
      {
        var i :| 0 <= i < |groups| && groups[i] == g;
        var j :| 0 <= j < |groups| && groups[j] == found.value;
        assert i == j;
      }
    }
  }
}
