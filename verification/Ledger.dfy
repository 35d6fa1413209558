/**
  Accounts and ledger entries: `core/accounts.py`.

  Amounts are integers in minor units with a currency beside them, and may be negative, as the
  source's money type admits. Accounts are never deleted, so an IBAN is the account's index in the
  table, and an IBAN outside the table is one that no account of the simulator owns.
*/
module Ledger {
  import opened Prelude

  datatype Kind = Pool | MerchantVan | External

  datatype Status = Active | Dormant | Closed

  datatype Account = Account(
    kind: Kind, parent: Option<nat>, currency: int, status: Status, balance: int, available: int)

  datatype Side = Debit | Credit

  /** `payment` is the instruction named in the entry's reference codes, if any. */
  datatype Entry = Entry(account: nat, amount: nat, side: Side, currency: int, balanceAfter: int, payment: Option<nat>)

  datatype Books = Books(accounts: seq<Account>, entries: seq<Entry>)

  datatype Error =
    AccountNotFound | AccountClosed | AccountDormant | CurrencyMismatch | InsufficientFunds | InternalError

  predicate Owned(b: Books, iban: int) {
    0 <= iban < |b.accounts|
  }

  function Absolute(x: int): nat {
    if x < 0 then -x else x
  }

  // ---- one entry --------------------------------------------------------

  function Delta(amount: int, side: Side): int {
    if side == Credit then amount else -amount
  }

  /** `write_entry`. */
  function Write(b: Books, i: nat, amount: int, currency: int, side: Side, payment: Option<nat>): Result<Books, Error>
    requires i < |b.accounts|
  {
    var a := b.accounts[i];
    var after := a.balance + Delta(amount, side);
    if currency != a.currency then Err(CurrencyMismatch)
    else if side == Debit && after < 0 then Err(InsufficientFunds)
    else Ok(Books(b.accounts[i := a.(balance := after, available := after)],
                  b.entries + [Entry(i, Absolute(amount), side, currency, after, payment)]))
  }

  // ---- soundness --------------------------------------------------------

  function Signed(e: Entry): int {
    if e.side == Credit then e.amount as int else -(e.amount as int)
  }

  /** The sum of the signed entries of account i. */
  function Posted(entries: seq<Entry>, i: nat): int {
    if entries == [] then 0
    else
      var e := entries[|entries| - 1];
      Posted(entries[..|entries| - 1], i) + if e.account == i then Signed(e) else 0
  }

  /** Entry k records the balance its account had after it: what came before, and itself. */
  ghost predicate Accounted(opening: seq<int>, entries: seq<Entry>, k: nat)
    requires k < |entries|
  {
    && entries[k].account < |opening|
    && entries[k].balanceAfter == opening[entries[k].account] + Posted(entries[..k + 1], entries[k].account)
  }

  ghost predicate Balanced(opening: seq<int>, b: Books, i: nat)
    requires i < |b.accounts| && |opening| == |b.accounts|
  {
    b.accounts[i].balance == b.accounts[i].available == opening[i] + Posted(b.entries, i)
  }

  /** The entries explain every balance, and every balance along the way. */
  ghost predicate Sound(opening: seq<int>, b: Books) {
    && |opening| == |b.accounts|
    && (forall i | 0 <= i < |b.accounts| :: Balanced(opening, b, i))
    && (forall k | 0 <= k < |b.entries| :: Accounted(opening, b.entries, k))
  }

  ghost predicate Solvent(b: Books) {
    forall i | 0 <= i < |b.accounts| :: b.accounts[i].balance >= 0
  }

  lemma PostedStep(entries: seq<Entry>, e: Entry, i: nat)
    ensures Posted(entries + [e], i) == Posted(entries, i) + if e.account == i then Signed(e) else 0
  {
    assert (entries + [e])[..|entries|] == entries;
  }

  lemma WriteShape(b: Books, i: nat, amount: int, currency: int, side: Side, payment: Option<nat>)
    requires i < |b.accounts| && Write(b, i, amount, currency, side, payment).Ok?
    ensures var c := Write(b, i, amount, currency, side, payment).value;
            var after := b.accounts[i].balance + Delta(amount, side);
            && c.accounts == b.accounts[i := b.accounts[i].(balance := after, available := after)]
            && c.entries == b.entries + [Entry(i, Absolute(amount), side, currency, after, payment)]
            && |c.accounts| == |b.accounts|
  {
  }

  /** Which entries are refused, and why; and what an accepted one writes. */
  lemma WriteOutcome(b: Books, i: nat, amount: int, currency: int, side: Side, payment: Option<nat>)
    requires i < |b.accounts|
    ensures var r, a := Write(b, i, amount, currency, side, payment), b.accounts[i];
            && (r == Err(CurrencyMismatch) <==> currency != a.currency)
            && (r == Err(InsufficientFunds) <==> currency == a.currency && side == Debit && a.balance < amount)
            && (r.Ok? <==> currency == a.currency && (side == Debit ==> amount <= a.balance))
            && (r.Ok? ==>
                  var after := if side == Debit then a.balance - amount else a.balance + amount;
                  && r.value.accounts == b.accounts[i := a.(balance := after, available := after)]
                  && |r.value.entries| == |b.entries| + 1 && r.value.entries[..|b.entries|] == b.entries
                  && var e := r.value.entries[|b.entries|];
                     && e.account == i && e.side == side && e.currency == currency && e.payment == payment
                     && e.balanceAfter == after && (e.amount == amount || e.amount == -amount))
  {
  }

  lemma WriteBalanced(
    opening: seq<int>, b: Books, i: nat, amount: int, currency: int, side: Side, payment: Option<nat>, j: nat)
    requires Sound(opening, b) && i < |b.accounts| && Write(b, i, amount, currency, side, payment).Ok?
    requires j < |b.accounts|
    ensures var c := Write(b, i, amount, currency, side, payment).value;
            && |c.accounts| == |opening|
            && (Balanced(opening, c, j) <==> j != i || amount >= 0)
  {
    hide Posted, Write, Accounted;
    WriteShape(b, i, amount, currency, side, payment);
    var c := Write(b, i, amount, currency, side, payment).value;
    var e := Entry(i, Absolute(amount), side, currency, b.accounts[i].balance + Delta(amount, side), payment);
    PostedStep(b.entries, e, j);
    assert Balanced(opening, b, j);
  }

  lemma WriteAccounted(opening: seq<int>, b: Books, i: nat, amount: int, currency: int, side: Side, payment: Option<nat>)
    requires Sound(opening, b) && i < |b.accounts| && Write(b, i, amount, currency, side, payment).Ok?
    requires amount >= 0
    ensures var c := Write(b, i, amount, currency, side, payment).value;
            forall k | 0 <= k < |c.entries| :: Accounted(opening, c.entries, k)
  {
    hide Posted, Write;
    WriteShape(b, i, amount, currency, side, payment);
    var c, n := Write(b, i, amount, currency, side, payment).value, |b.entries|;
    forall k | 0 <= k < |c.entries| ensures Accounted(opening, c.entries, k) {
      if k < n {
        assert Accounted(opening, b.entries, k);
        assert c.entries[..k + 1] == b.entries[..k + 1];
      } else {
        assert Balanced(opening, b, i);
        PostedStep(b.entries, c.entries[n], i);
        assert c.entries[..n + 1] == b.entries + [c.entries[n]];
      }
    }
  }

  /** An entry keeps the ledger sound exactly when its amount is not negative. */
  lemma WriteKeepsSoundIff(
    opening: seq<int>, b: Books, i: nat, amount: int, currency: int, side: Side, payment: Option<nat>)
    requires Sound(opening, b) && i < |b.accounts| && Write(b, i, amount, currency, side, payment).Ok?
    ensures Sound(opening, Write(b, i, amount, currency, side, payment).value) <==> amount >= 0
  {
    hide Posted, Write, Accounted, Balanced;
    WriteBalanced(opening, b, i, amount, currency, side, payment, i);
    if amount >= 0 {
      forall j | 0 <= j < |b.accounts|
        ensures Balanced(opening, Write(b, i, amount, currency, side, payment).value, j)
      {
        WriteBalanced(opening, b, i, amount, currency, side, payment, j);
      }
      WriteAccounted(opening, b, i, amount, currency, side, payment);
    }
  }

  /**
    A debit that is booked overdraws nobody. A credit does exactly if it is of a negative amount
    that its account's balance does not cover.
  */
  lemma WriteKeepsSolventIff(b: Books, i: nat, amount: int, currency: int, side: Side, payment: Option<nat>)
    requires Solvent(b) && i < |b.accounts| && Write(b, i, amount, currency, side, payment).Ok?
    ensures Solvent(Write(b, i, amount, currency, side, payment).value) <==>
            side == Debit || b.accounts[i].balance + amount >= 0
  {
    WriteShape(b, i, amount, currency, side, payment);
    var c := Write(b, i, amount, currency, side, payment).value;
    hide Write;
    assert c.accounts[i].balance == b.accounts[i].balance + Delta(amount, side);
  }

  // ---- money in total ---------------------------------------------------

  /** The balances held in one currency. */
  function Money(accounts: seq<Account>, currency: int): int {
    if accounts == [] then 0
    else
      var a := accounts[|accounts| - 1];
      Money(accounts[..|accounts| - 1], currency) + if a.currency == currency then a.balance else 0
  }

  function Rebalanced(accounts: seq<Account>, i: nat, delta: int): seq<Account>
    requires i < |accounts|
  {
    var after := accounts[i].balance + delta;
    accounts[i := accounts[i].(balance := after, available := after)]
  }

  lemma {:induction false} MoneyMoves(accounts: seq<Account>, i: nat, delta: int, currency: int)
    requires i < |accounts|
    ensures Money(Rebalanced(accounts, i, delta), currency)
         == Money(accounts, currency) + if accounts[i].currency == currency then delta else 0
    decreases |accounts|
  {
    var n, x := |accounts| - 1, Rebalanced(accounts, i, delta);
    if i < n {
      MoneyMoves(accounts[..n], i, delta, currency);
      assert x[..n] == Rebalanced(accounts[..n], i, delta);
    } else {
      assert x[..n] == accounts[..n];
    }
  }

  // ---- pools ------------------------------------------------------------

  predicate HasChildren(accounts: seq<Account>, p: nat) {
    exists i | 0 <= i < |accounts| :: accounts[i].parent == Some(p)
  }

  function ChildSum(accounts: seq<Account>, p: nat): int {
    if accounts == [] then 0
    else
      var a := accounts[|accounts| - 1];
      ChildSum(accounts[..|accounts| - 1], p) + if a.parent == Some(p) then a.balance else 0
  }

  /** What `_check_pool_sum` accepts. */
  predicate PoolOk(accounts: seq<Account>, p: nat)
    requires p < |accounts|
  {
    HasChildren(accounts, p) ==> accounts[p].balance == ChildSum(accounts, p)
  }

  /** What `_assert_pool_invariant` accepts for account i. */
  predicate LocallyOk(accounts: seq<Account>, i: nat)
    requires i < |accounts|
  {
    var a := accounts[i];
    if a.kind == MerchantVan && a.parent.Some? then
      a.parent.value < |accounts| && PoolOk(accounts, a.parent.value)
    else if a.kind == Pool then PoolOk(accounts, i)
    else true
  }

  /** The invariant F3, for every pool. */
  ghost predicate Pools(accounts: seq<Account>) {
    forall p | 0 <= p < |accounts| && accounts[p].kind == Pool :: PoolOk(accounts, p)
  }

  /** The foreign key of the parent column. */
  ghost predicate ParentsExist(accounts: seq<Account>) {
    forall i | 0 <= i < |accounts| && accounts[i].parent.Some? :: accounts[i].parent.value < |accounts|
  }

  /** The pool whose children's sum counts account i, whatever kind of account i is. */
  function Under(accounts: seq<Account>, i: nat): Option<nat>
    requires i < |accounts|
  {
    match accounts[i].parent
    case None => None
    case Some(p) => if p < |accounts| && p != i && accounts[p].kind == Pool then Some(p) else None
  }

  /** Account i is a pool with children of which it is not one itself. */
  predicate Heads(accounts: seq<Account>, i: nat)
    requires i < |accounts|
  {
    accounts[i].kind == Pool && HasChildren(accounts, i) && accounts[i].parent != Some(i)
  }

  /** A payment of `amount` from one account to the other upsets no pool. */
  predicate PoolNeutral(accounts: seq<Account>, src: nat, dst: nat, amount: int)
    requires src < |accounts| && dst < |accounts|
  {
    || amount == 0
    || src == dst
    || (!Heads(accounts, src) && !Heads(accounts, dst) && Under(accounts, src) == Under(accounts, dst))
  }

  /** The account whose children `_assert_pool_invariant` adds up for account i. */
  function Watched(accounts: seq<Account>, i: nat): Option<nat>
    requires i < |accounts|
  {
    if accounts[i].kind == MerchantVan && accounts[i].parent.Some? then accounts[i].parent
    else if accounts[i].kind == Pool then Some(i)
    else None
  }

  /** The check at one end of a transfer will pass, told from the balances before it. */
  predicate EndPasses(accounts: seq<Account>, src: nat, dst: nat, amount: int, end: nat)
    requires src < |accounts| && dst < |accounts| && end < |accounts|
  {
    match Watched(accounts, end)
    case None => true
    case Some(p) =>
      && p < |accounts|
      && (HasChildren(accounts, p) ==>
            Gap(accounts, p) == Weigh(accounts, src, p, amount) - Weigh(accounts, dst, p, amount))
  }

  /** If account i is counted by a pool, it is a virtual account: the check at i looks at that pool. */
  predicate Guarded(accounts: seq<Account>, i: nat)
    requires i < |accounts|
  {
    Under(accounts, i).Some? ==> accounts[i].kind == MerchantVan
  }

  /** The check at account i looks at a pool, if at all. */
  predicate WatchesPool(accounts: seq<Account>, i: nat)
    requires i < |accounts|
  {
    match Watched(accounts, i)
    case None => true
    case Some(p) => p < |accounts| && accounts[p].kind == Pool
  }

  // ---- transfers --------------------------------------------------------

  function Usable(a: Account): Result<(), Error> {
    if a.status == Closed then Err(AccountClosed)
    else if a.status == Dormant then Err(AccountDormant)
    else Ok(())
  }

  /** A debit of one account and a credit of another. */
  function Move(b: Books, src: nat, dst: nat, amount: int, currency: int, payment: Option<nat>): Result<Books, Error>
    requires src < |b.accounts| && dst < |b.accounts|
  {
    var debited := Write(b, src, amount, currency, Debit, payment);
    if debited.Err? then debited
    else Write(debited.value, dst, amount, currency, Credit, payment)
  }

  /** `internal_transfer`. */
  function Transfer(b: Books, src: int, dst: int, amount: int, currency: int): Result<Books, Error> {
    if !Owned(b, src) || !Owned(b, dst) then Err(AccountNotFound)
    else if Usable(b.accounts[src]).Err? then Err(Usable(b.accounts[src]).error)
    else if Usable(b.accounts[dst]).Err? then Err(Usable(b.accounts[dst]).error)
    else if b.accounts[src].currency != b.accounts[dst].currency then Err(CurrencyMismatch)
    else
      var moved := Move(b, src, dst, amount, currency, None);
      if moved.Err? then moved
      else if !LocallyOk(moved.value.accounts, src) || !LocallyOk(moved.value.accounts, dst) then Err(InternalError)
      else moved
  }

  /** How account i's balance weighs in the gap between pool p and its children. */
  function Weigh(accounts: seq<Account>, i: nat, p: nat, delta: int): int
    requires i < |accounts|
  {
    (if i == p then delta else 0) - (if accounts[i].parent == Some(p) then delta else 0)
  }

  function Gap(accounts: seq<Account>, p: nat): int
    requires p < |accounts|
  {
    accounts[p].balance - ChildSum(accounts, p)
  }

  lemma {:induction false} ChildSumMoves(accounts: seq<Account>, i: nat, delta: int, p: nat)
    requires i < |accounts|
    ensures ChildSum(Rebalanced(accounts, i, delta), p)
         == ChildSum(accounts, p) + if accounts[i].parent == Some(p) then delta else 0
    decreases |accounts|
  {
    var n, x := |accounts| - 1, Rebalanced(accounts, i, delta);
    if i < n {
      ChildSumMoves(accounts[..n], i, delta, p);
      assert x[..n] == Rebalanced(accounts[..n], i, delta);
    } else {
      assert x[..n] == accounts[..n];
    }
  }

  /** The same accounts, but for their balances. */
  ghost predicate SameAccounts(x: seq<Account>, y: seq<Account>) {
    && |x| == |y|
    && forall i | 0 <= i < |x| :: y[i] == x[i].(balance := y[i].balance, available := y[i].available)
  }

  lemma RebalanceGap(accounts: seq<Account>, i: nat, delta: int, p: nat)
    requires i < |accounts| && p < |accounts|
    ensures SameAccounts(accounts, Rebalanced(accounts, i, delta))
    ensures Gap(Rebalanced(accounts, i, delta), p) == Gap(accounts, p) + Weigh(accounts, i, p, delta)
  {
    hide ChildSum;
    ChildSumMoves(accounts, i, delta, p);
  }

  lemma SameChildren(x: seq<Account>, y: seq<Account>)
    requires SameAccounts(x, y)
    ensures forall p: nat :: HasChildren(x, p) <==> HasChildren(y, p)
  {
    forall p: nat ensures HasChildren(x, p) <==> HasChildren(y, p) {
      if HasChildren(x, p) {
        var i :| 0 <= i < |x| && x[i].parent == Some(p);
        assert y[i].parent == Some(p);
      }
      if HasChildren(y, p) {
        var i :| 0 <= i < |y| && y[i].parent == Some(p);
        assert x[i].parent == Some(p);
      }
    }
  }

  /** A move that goes through is two changes of balance. */
  lemma MoveShape(b: Books, src: nat, dst: nat, amount: int, currency: int, payment: Option<nat>)
    requires src < |b.accounts| && dst < |b.accounts|
    ensures var m := Move(b, src, dst, amount, currency, payment);
            && (m.Ok? <==> b.accounts[src].currency == b.accounts[dst].currency == currency
                           && b.accounts[src].balance >= amount)
            && (m.Ok? ==> m.value.accounts == Rebalanced(Rebalanced(b.accounts, src, -amount), dst, amount))
  {
  }

  /**
    What a move that goes through writes: the source loses the amount and the destination gains it,
    no other account changes, and a debit and a credit of it are appended, in this order.
  */
  lemma MoveOutcome(b: Books, src: nat, dst: nat, amount: int, currency: int, payment: Option<nat>)
    requires src < |b.accounts| && dst < |b.accounts| && Move(b, src, dst, amount, currency, payment).Ok?
    ensures var c, n := Move(b, src, dst, amount, currency, payment).value, |b.entries|;
            && |c.accounts| == |b.accounts|
            && (forall i | 0 <= i < |b.accounts| && i != src && i != dst :: c.accounts[i] == b.accounts[i])
            && (src != dst ==>
                  && c.accounts[src].balance == c.accounts[src].available == b.accounts[src].balance - amount
                  && c.accounts[dst].balance == c.accounts[dst].available == b.accounts[dst].balance + amount)
            && (src == dst ==> c.accounts[src].balance == c.accounts[src].available == b.accounts[src].balance)
            && SameAccounts(b.accounts, c.accounts)
            && |c.entries| == n + 2 && c.entries[..n] == b.entries
            && c.entries[n].account == src && c.entries[n].side == Debit
            && c.entries[n + 1].account == dst && c.entries[n + 1].side == Credit
            && c.entries[n].balanceAfter == b.accounts[src].balance - amount
            && c.entries[n + 1].balanceAfter == c.accounts[dst].balance
            && forall e | e in c.entries[n..] ::
                 e.currency == currency && e.payment == payment && (e.amount == amount || e.amount == -amount)
  {
    var m := Write(b, src, amount, currency, Debit, payment).value;
    WriteOutcome(b, src, amount, currency, Debit, payment);
    WriteOutcome(m, dst, amount, currency, Credit, payment);
    var c, n := Move(b, src, dst, amount, currency, payment).value, |b.entries|;
    hide Write;
    assert c.entries[..n] == c.entries[..n + 1][..n];
    assert c.entries[n] == c.entries[..n + 1][n];
    assert c.entries[n..] == [c.entries[n], c.entries[n + 1]];
  }

  lemma MoveGap(accounts: seq<Account>, src: nat, dst: nat, amount: int, p: nat)
    requires src < |accounts| && dst < |accounts| && p < |accounts|
    ensures var after := Rebalanced(Rebalanced(accounts, src, -amount), dst, amount);
            && SameAccounts(accounts, after)
            && Gap(after, p) == Gap(accounts, p) + Weigh(accounts, dst, p, amount) - Weigh(accounts, src, p, amount)
  {
    hide ChildSum, Gap;
    RebalanceGap(accounts, src, -amount, p);
    RebalanceGap(Rebalanced(accounts, src, -amount), dst, amount, p);
  }

  ghost function Moved(accounts: seq<Account>, src: nat, dst: nat, amount: int): seq<Account>
    requires src < |accounts| && dst < |accounts|
  {
    Rebalanced(Rebalanced(accounts, src, -amount), dst, amount)
  }

  lemma MovedSame(accounts: seq<Account>, src: nat, dst: nat, amount: int)
    requires src < |accounts| && dst < |accounts|
    ensures SameAccounts(accounts, Moved(accounts, src, dst, amount))
    ensures |Moved(accounts, src, dst, amount)| == |accounts|
  {
  }

  /** After a move, p's sum is right exactly if what the ends weigh in it makes up the gap there was. */
  lemma MovedPoolOk(accounts: seq<Account>, src: nat, dst: nat, amount: int, p: nat)
    requires src < |accounts| && dst < |accounts| && p < |accounts|
    ensures |Moved(accounts, src, dst, amount)| == |accounts|
    ensures PoolOk(Moved(accounts, src, dst, amount), p) <==>
            (HasChildren(accounts, p) ==>
              Gap(accounts, p) == Weigh(accounts, src, p, amount) - Weigh(accounts, dst, p, amount))
  {
    hide ChildSum, HasChildren, Weigh;
    MoveGap(accounts, src, dst, amount, p);
    SameChildren(accounts, Moved(accounts, src, dst, amount));
  }

  lemma PoolGap(accounts: seq<Account>, p: nat)
    requires Pools(accounts) && p < |accounts| && accounts[p].kind == Pool && HasChildren(accounts, p)
    ensures Gap(accounts, p) == 0
  {
    hide ChildSum, HasChildren;
    assert PoolOk(accounts, p);
  }

  /** A move keeps the sum of every pool exactly if both its ends weigh the same in each that has children. */
  lemma MoveKeepsPoolsIfWeighed(accounts: seq<Account>, src: nat, dst: nat, amount: int)
    requires src < |accounts| && dst < |accounts| && Pools(accounts)
    ensures Pools(Moved(accounts, src, dst, amount)) <==>
            forall p | 0 <= p < |accounts| && accounts[p].kind == Pool && HasChildren(accounts, p) ::
              Weigh(accounts, dst, p, amount) == Weigh(accounts, src, p, amount)
  {
    var after := Moved(accounts, src, dst, amount);
    MovedSame(accounts, src, dst, amount);
    forall p | 0 <= p < |accounts| ensures after[p].kind == accounts[p].kind {
    }
    hide PoolOk, Moved, Weigh, HasChildren, SameAccounts, Gap;
    forall p | 0 <= p < |accounts| && accounts[p].kind == Pool
      ensures PoolOk(after, p) <==>
              (HasChildren(accounts, p) ==> Weigh(accounts, dst, p, amount) == Weigh(accounts, src, p, amount))
    {
      MovedPoolOk(accounts, src, dst, amount, p);
      if HasChildren(accounts, p) {
        PoolGap(accounts, p);
      }
    }
  }

  lemma NeutralWeighs(accounts: seq<Account>, src: nat, dst: nat, amount: int, p: nat)
    requires src < |accounts| && dst < |accounts| && p < |accounts|
    requires PoolNeutral(accounts, src, dst, amount) && HasChildren(accounts, p) && accounts[p].kind == Pool
    ensures Weigh(accounts, dst, p, amount) == Weigh(accounts, src, p, amount)
  {
  }

  lemma UnderHasChildren(accounts: seq<Account>, i: nat)
    requires i < |accounts|
    ensures var u := Under(accounts, i);
            u.Some? ==> u.value < |accounts| && accounts[u.value].kind == Pool && HasChildren(accounts, u.value)
  {
  }

  /** The end of a move that is not neutral whose pool it upsets, and that pool. */
  lemma NotNeutralWeighs(accounts: seq<Account>, src: nat, dst: nat, amount: int) returns (end: nat, p: nat)
    requires src < |accounts| && dst < |accounts| && !PoolNeutral(accounts, src, dst, amount)
    ensures end == src || end == dst
    ensures p < |accounts| && accounts[p].kind == Pool && HasChildren(accounts, p)
    ensures (p == end && Heads(accounts, end)) || Under(accounts, end) == Some(p)
    ensures Weigh(accounts, dst, p, amount) != Weigh(accounts, src, p, amount)
  {
    hide HasChildren;
    UnderHasChildren(accounts, src);
    UnderHasChildren(accounts, dst);
    if Heads(accounts, src) {
      end, p := src, src;
    } else if Heads(accounts, dst) {
      end, p := dst, dst;
    } else if Under(accounts, src).Some? {
      end, p := src, Under(accounts, src).value;
    } else {
      end, p := dst, Under(accounts, dst).value;
    }
  }

  /**
    A move keeps the sum of every pool exactly when it is neutral: nothing moves, or within one
    account, or neither end heads children and both are counted by the same pool or by none.
  */
  lemma MoveKeepsPoolsIff(accounts: seq<Account>, src: nat, dst: nat, amount: int)
    requires src < |accounts| && dst < |accounts| && Pools(accounts)
    ensures Pools(Moved(accounts, src, dst, amount)) <==> PoolNeutral(accounts, src, dst, amount)
  {
    hide Pools, Moved, Weigh, HasChildren, PoolNeutral, Under, Heads;
    MoveKeepsPoolsIfWeighed(accounts, src, dst, amount);
    if PoolNeutral(accounts, src, dst, amount) {
      forall p | 0 <= p < |accounts| && accounts[p].kind == Pool && HasChildren(accounts, p)
        ensures Weigh(accounts, dst, p, amount) == Weigh(accounts, src, p, amount)
      {
        NeutralWeighs(accounts, src, dst, amount, p);
      }
    } else {
      var end, p := NotNeutralWeighs(accounts, src, dst, amount);
    }
  }

  /** A one-sided change keeps every pool's sum exactly when it is nothing, or outside every pool. */
  lemma ChangeKeepsPoolsIff(accounts: seq<Account>, i: nat, delta: int)
    requires i < |accounts| && Pools(accounts)
    ensures Pools(Rebalanced(accounts, i, delta)) <==>
            delta == 0 || (!Heads(accounts, i) && Under(accounts, i) == None)
  {
    var after := Rebalanced(accounts, i, delta);
    RebalanceGap(accounts, i, delta, i);
    SameChildren(accounts, after);
    UnderHasChildren(accounts, i);
    WeighsNowhereElse(accounts, i, delta);
    hide Rebalanced, ChildSum, HasChildren, Under;
    forall p | 0 <= p < |accounts| && accounts[p].kind == Pool
      ensures PoolOk(after, p) <==> !HasChildren(accounts, p) || Weigh(accounts, i, p, delta) == 0
    {
      assert PoolOk(accounts, p);
      RebalanceGap(accounts, i, delta, p);
    }
  }

  /** An account weighs in the pool that counts it and, if it heads children, in itself. */
  lemma WeighsNowhereElse(accounts: seq<Account>, i: nat, delta: int)
    requires i < |accounts|
    ensures forall p | 0 <= p < |accounts| && accounts[p].kind == Pool && HasChildren(accounts, p) ::
              Weigh(accounts, i, p, delta) == 0 <==>
              delta == 0 || (Under(accounts, i) != Some(p) && !(i == p && Heads(accounts, i)))
  {
  }

  lemma WatchedSame(x: seq<Account>, y: seq<Account>, i: nat)
    requires SameAccounts(x, y) && i < |x|
    ensures |y| == |x| && Watched(y, i) == Watched(x, i)
    ensures LocallyOk(y, i) <==> Watched(x, i).None? || (Watched(x, i).value < |y| && PoolOk(y, Watched(x, i).value))
  {
    hide PoolOk;
  }

  /** The check at one end of a move, told from the balances before it. */
  lemma EndPassesIff(accounts: seq<Account>, src: nat, dst: nat, amount: int, end: nat)
    requires src < |accounts| && dst < |accounts| && end < |accounts|
    ensures |Moved(accounts, src, dst, amount)| == |accounts|
    ensures LocallyOk(Moved(accounts, src, dst, amount), end) <==> EndPasses(accounts, src, dst, amount, end)
  {
    MovedSame(accounts, src, dst, amount);
    hide Moved, LocallyOk, PoolOk, SameAccounts, Gap, Weigh, HasChildren, Watched;
    var w := Watched(accounts, end);
    WatchedSame(accounts, Moved(accounts, src, dst, amount), end);
    if w.Some? && w.value < |accounts| {
      MovedPoolOk(accounts, src, dst, amount, w.value);
    }
  }

  /**
    When the two local checks are worth the invariant: they imply it for every pool if each end
    that a pool counts is a virtual account, and follow from it if they look at pools only.
  */
  lemma LocalChecksSuffice(accounts: seq<Account>, src: nat, dst: nat, amount: int)
    requires src < |accounts| && dst < |accounts| && Pools(accounts)
    ensures var after := Moved(accounts, src, dst, amount);
            && |after| == |accounts|
            && (Guarded(accounts, src) && Guarded(accounts, dst) && LocallyOk(after, src) && LocallyOk(after, dst) ==>
                  Pools(after))
            && (WatchesPool(accounts, src) && WatchesPool(accounts, dst) && Pools(after) ==>
                  LocallyOk(after, src) && LocallyOk(after, dst))
  {
    hide *;
    var after := Moved(accounts, src, dst, amount);
    MovedSame(accounts, src, dst, amount);
    MoveKeepsPoolsIff(accounts, src, dst, amount);
    if Pools(after) {
      PoolsPass(accounts, src, dst, amount, src);
      PoolsPass(accounts, src, dst, amount, dst);
    } else if Guarded(accounts, src) && Guarded(accounts, dst) {
      var end, p := NotNeutralWeighs(accounts, src, dst, amount);
      GuardFails(accounts, src, dst, amount, end, p);
    }
  }

  lemma PoolsPass(accounts: seq<Account>, src: nat, dst: nat, amount: int, end: nat)
    requires src < |accounts| && dst < |accounts| && end < |accounts|
    requires Pools(Moved(accounts, src, dst, amount))
    ensures |Moved(accounts, src, dst, amount)| == |accounts|
    ensures WatchesPool(accounts, end) ==> LocallyOk(Moved(accounts, src, dst, amount), end)
  {
    MovedSame(accounts, src, dst, amount);
    WatchedSame(accounts, Moved(accounts, src, dst, amount), end);
    hide Moved, PoolOk, HasChildren, LocallyOk;
  }

  lemma GuardFails(accounts: seq<Account>, src: nat, dst: nat, amount: int, end: nat, p: nat)
    requires src < |accounts| && dst < |accounts| && (end == src || end == dst) && Pools(accounts)
    requires p < |accounts| && accounts[p].kind == Pool && HasChildren(accounts, p) && Guarded(accounts, end)
    requires (p == end && Heads(accounts, end)) || Under(accounts, end) == Some(p)
    requires Weigh(accounts, dst, p, amount) != Weigh(accounts, src, p, amount)
    ensures |Moved(accounts, src, dst, amount)| == |accounts|
    ensures !LocallyOk(Moved(accounts, src, dst, amount), end)
  {
    EndPassesIff(accounts, src, dst, amount, end);
    PoolGap(accounts, p);
    hide Moved, Pools, Weigh, Gap, LocallyOk, HasChildren;
  }

  /** The accounts are there, usable, and of the transfer's one currency, and the source is funded. */
  predicate Payable(b: Books, src: int, dst: int, amount: int, currency: int) {
    && Owned(b, src) && Owned(b, dst)
    && b.accounts[src].status == Active && b.accounts[dst].status == Active
    && b.accounts[src].currency == b.accounts[dst].currency == currency
    && b.accounts[src].balance >= amount
  }

  lemma TransferIs(b: Books, src: int, dst: int, amount: int, currency: int)
    ensures Payable(b, src, dst, amount, currency) ==>
              && Move(b, src, dst, amount, currency, None).Ok?
              && var after := Move(b, src, dst, amount, currency, None).value.accounts;
                 after == Moved(b.accounts, src, dst, amount)
                 && (Transfer(b, src, dst, amount, currency).Ok? <==> LocallyOk(after, src) && LocallyOk(after, dst))
    ensures !Payable(b, src, dst, amount, currency) ==> Transfer(b, src, dst, amount, currency).Err?
    ensures Transfer(b, src, dst, amount, currency).Ok? ==>
              && Payable(b, src, dst, amount, currency)
              && Transfer(b, src, dst, amount, currency) == Move(b, src, dst, amount, currency, None)
  {
    if Owned(b, src) && Owned(b, dst) {
      MoveShape(b, src, dst, amount, currency, None);
      MovedSame(b.accounts, src, dst, amount);
    }
    hide Move, LocallyOk, Moved, SameAccounts;
  }

  /**
    Which error a transfer ends with: an unknown account before anything, then the state of the
    source, that of the destination, the currencies, the funds, and the checks of the pools last.
  */
  lemma TransferErrorIff(b: Books, src: int, dst: int, amount: int, currency: int)
    ensures var t, n := Transfer(b, src, dst, amount, currency), |b.accounts|;
            && (t == Err(AccountNotFound) <==> !(0 <= src < n && 0 <= dst < n))
            && (0 <= src < n && 0 <= dst < n ==>
                  var x, y := b.accounts[src], b.accounts[dst];
                  && (t == Err(AccountClosed) <==> x.status == Closed || (x.status == Active && y.status == Closed))
                  && (t == Err(AccountDormant) <==> x.status == Dormant || (x.status == Active && y.status == Dormant))
                  && (x.status == Active && y.status == Active ==>
                        && (t == Err(CurrencyMismatch) <==> !(x.currency == y.currency == currency))
                        && (t == Err(InsufficientFunds) <==> x.currency == y.currency == currency && x.balance < amount)
                        && (t == Err(InternalError) <==>
                              && x.currency == y.currency == currency && amount <= x.balance
                              && !(EndPasses(b.accounts, src, dst, amount, src)
                                   && EndPasses(b.accounts, src, dst, amount, dst)))))
  {
    hide LocallyOk, EndPasses, Moved;
    TransferReturnsIff(b, src, dst, amount, currency);
    if Owned(b, src) && Owned(b, dst) {
      MoveShape(b, src, dst, amount, currency, None);
      hide *;
      TransferErr(b, src, dst, amount, currency);
    }
  }

  lemma TransferErr(b: Books, src: nat, dst: nat, amount: int, currency: int)
    requires src < |b.accounts| && dst < |b.accounts|
    ensures var t, x, y := Transfer(b, src, dst, amount, currency), b.accounts[src], b.accounts[dst];
            && !(t == Err(AccountNotFound))
            && (x.status == Closed ==> t == Err(AccountClosed))
            && (x.status == Dormant ==> t == Err(AccountDormant))
            && (x.status == Active && y.status == Closed ==> t == Err(AccountClosed))
            && (x.status == Active && y.status == Dormant ==> t == Err(AccountDormant))
            && (x.status == Active && y.status == Active ==>
                  && (t == Err(CurrencyMismatch) <==> !(x.currency == y.currency == currency))
                  && (t == Err(InsufficientFunds) <==> x.currency == y.currency == currency && x.balance < amount)
                  && t != Err(AccountClosed) && t != Err(AccountDormant)
                  && (t.Ok? || t.error in {CurrencyMismatch, InsufficientFunds, InternalError}))
  {
    MoveShape(b, src, dst, amount, currency, None);
    WriteOutcome(b, src, amount, currency, Debit, None);
    hide LocallyOk;
  }

  /**
    A transfer returns exactly when its accounts are payable and the checks at its ends will pass;
    and one that returns keeps every pool in balance exactly when it is neutral.
  */
  lemma TransferReturnsIff(b: Books, src: int, dst: int, amount: int, currency: int)
    ensures var t := Transfer(b, src, dst, amount, currency);
            && (t.Ok? <==> Payable(b, src, dst, amount, currency)
                           && EndPasses(b.accounts, src, dst, amount, src)
                           && EndPasses(b.accounts, src, dst, amount, dst))
            && (t.Ok? ==> Owned(b, src) && Owned(b, dst) && t == Move(b, src, dst, amount, currency, None))
            && (t.Ok? && Pools(b.accounts) ==>
                  (Pools(t.value.accounts) <==> PoolNeutral(b.accounts, src, dst, amount)))
  {
    hide Transfer, Move, LocallyOk, Moved, Pools, PoolNeutral, EndPasses;
    TransferIs(b, src, dst, amount, currency);
    if Payable(b, src, dst, amount, currency) {
      EndPassesIff(b.accounts, src, dst, amount, src);
      EndPassesIff(b.accounts, src, dst, amount, dst);
      if Pools(b.accounts) {
        MoveKeepsPoolsIff(b.accounts, src, dst, amount);
      }
    }
  }

  /**
    A transfer between ends that are virtual accounts if a pool counts them, with every pool in
    balance before, keeps every pool in balance if it returns; and if the ends' checks look at
    pools only it returns exactly when it is payable and neutral.
  */
  lemma GuardedTransferReturnsIff(b: Books, src: int, dst: int, amount: int, currency: int)
    requires Pools(b.accounts)
    requires Owned(b, src) ==> Guarded(b.accounts, src)
    requires Owned(b, dst) ==> Guarded(b.accounts, dst)
    ensures var t := Transfer(b, src, dst, amount, currency);
            && (t.Ok? ==> Pools(t.value.accounts) && PoolNeutral(b.accounts, src, dst, amount))
            && (Payable(b, src, dst, amount, currency)
                && WatchesPool(b.accounts, src) && WatchesPool(b.accounts, dst) ==>
                  (t.Ok? <==> PoolNeutral(b.accounts, src, dst, amount)))
  {
    hide Transfer, Move, LocallyOk, Moved, Pools, PoolNeutral, EndPasses, Guarded, WatchesPool;
    TransferIs(b, src, dst, amount, currency);
    if Payable(b, src, dst, amount, currency) {
      LocalChecksSuffice(b.accounts, src, dst, amount);
      MoveKeepsPoolsIff(b.accounts, src, dst, amount);
    }
  }

  /** A pool with one external child, and an external account outside: the transfer between them returns. */
  lemma ExternalChildBreaksPool()
    ensures var accounts := [Account(Pool, None, 1, Active, 0, 0), Account(External, Some(0), 1, Active, 0, 0),
                             Account(External, None, 1, Active, 10, 10)];
            var t := Transfer(Books(accounts, []), 2, 1, 4, 1);
            Pools(accounts) && t.Ok? && !Pools(t.value.accounts)
  {
    var accounts := [Account(Pool, None, 1, Active, 0, 0), Account(External, Some(0), 1, Active, 0, 0),
                     Account(External, None, 1, Active, 10, 10)];
    assert ChildSum([accounts[0]], 0) == 0 by { assert [accounts[0]][..0] == []; }
    ChildSumAppend([accounts[0]], accounts[1], 0);
    ChildSumAppend([accounts[0], accounts[1]], accounts[2], 0);
    assert [accounts[0]] + [accounts[1]] == [accounts[0], accounts[1]];
    assert [accounts[0], accounts[1]] + [accounts[2]] == accounts;
    assert accounts[1].parent == Some(0);
    hide ChildSum;
    assert Pools(accounts);
    TransferReturnsIff(Books(accounts, []), 2, 1, 4, 1);
  }

  /** Money only changes hands: a transfer keeps the total of every currency. */
  lemma TransferKeepsMoney(b: Books, src: int, dst: int, amount: int, currency: int, c: int)
    requires Transfer(b, src, dst, amount, currency).Ok?
    ensures Money(Transfer(b, src, dst, amount, currency).value.accounts, c) == Money(b.accounts, c)
  {
    hide Transfer, Move, Money, LocallyOk;
    TransferIs(b, src, dst, amount, currency);
    MoneyMoves(b.accounts, src, -amount, c);
    MoneyMoves(Rebalanced(b.accounts, src, -amount), dst, amount, c);
  }

  /** A move keeps the ledger sound exactly when its amount is not negative; then nobody is overdrawn. */
  lemma MoveKeepsSoundIff(
    opening: seq<int>, b: Books, src: nat, dst: nat, amount: int, currency: int, payment: Option<nat>)
    requires Sound(opening, b) && src < |b.accounts| && dst < |b.accounts|
    requires Move(b, src, dst, amount, currency, payment).Ok?
    ensures Sound(opening, Move(b, src, dst, amount, currency, payment).value) <==> amount >= 0
    ensures Solvent(b) && amount >= 0 ==> Solvent(Move(b, src, dst, amount, currency, payment).value)
  {
    hide Write, Sound, Solvent;
    var m := Write(b, src, amount, currency, Debit, payment).value;
    WriteShape(b, src, amount, currency, Debit, payment);
    WriteShape(m, dst, amount, currency, Credit, payment);
    if amount >= 0 {
      WriteKeepsSoundIff(opening, b, src, amount, currency, Debit, payment);
      WriteKeepsSoundIff(opening, m, dst, amount, currency, Credit, payment);
      if Solvent(b) {
        WriteKeepsSolventIff(b, src, amount, currency, Debit, payment);
        WriteKeepsSolventIff(m, dst, amount, currency, Credit, payment);
        SolventAt(m, dst);
      }
    } else {
      NegativeUnsound(opening, b, src, amount, currency, Debit, payment,
                      opening, Move(b, src, dst, amount, currency, payment).value);
    }
  }

  lemma SolventAt(b: Books, i: nat)
    requires Solvent(b) && i < |b.accounts|
    ensures b.accounts[i].balance >= 0
  {
  }

  /** Once a negative amount is booked the ledger is unsound, whatever happens later. */
  lemma NegativeUnsound(
    opening: seq<int>, b: Books, i: nat, amount: int, currency: int, side: Side, payment: Option<nat>,
    opening': seq<int>, later: Books)
    requires Sound(opening, b) && i < |b.accounts| && amount < 0
    requires Write(b, i, amount, currency, side, payment).Ok?
    requires Write(b, i, amount, currency, side, payment).value.entries <= later.entries && opening <= opening'
    ensures !Sound(opening', later)
  {
    hide Posted, Write;
    WriteShape(b, i, amount, currency, side, payment);
    var m, n := Write(b, i, amount, currency, side, payment).value, |b.entries|;
    PostedStep(b.entries, m.entries[n], i);
    assert Balanced(opening, b, i);
    assert later.entries[..n + 1] == m.entries;
    assert !Accounted(opening', later.entries, n);
  }

  /**
    Opening an empty account, of any kind, keeps every pool in balance unless it is the first
    child of a funded pool.
  */
  lemma OpeningKeepsPoolsIff(accounts: seq<Account>, a: Account)
    requires ParentsExist(accounts) && Pools(accounts) && a.balance == 0
    requires a.parent.Some? ==> a.parent.value < |accounts|
    ensures ParentsExist(accounts + [a])
    ensures Pools(accounts + [a]) <==>
            (a.parent.Some? && accounts[a.parent.value].kind == Pool ==>
              HasChildren(accounts, a.parent.value) || accounts[a.parent.value].balance == 0)
  {
    hide ChildSum;
    var x := accounts + [a];
    assert !HasChildren(accounts, |accounts|);
    forall p: nat ensures ChildSum(x, p) == ChildSum(accounts, p)
                  ensures HasChildren(x, p) <==> HasChildren(accounts, p) || a.parent == Some(p)
    {
      ChildSumAppend(accounts, a, p);
      HasChildrenAppend(accounts, a, p);
    }
    hide HasChildren;
    forall p | 0 <= p < |accounts| && accounts[p].kind == Pool
      ensures PoolOk(x, p) <==> a.parent != Some(p) || HasChildren(accounts, p) || accounts[p].balance == 0
    {
      ChildlessSum(accounts, p);
      assert PoolOk(accounts, p);
    }
    assert PoolOk(x, |accounts|);
  }

  lemma ChildSumAppend(accounts: seq<Account>, a: Account, p: nat)
    ensures ChildSum(accounts + [a], p) == ChildSum(accounts, p) + if a.parent == Some(p) then a.balance else 0
  {
    assert (accounts + [a])[..|accounts|] == accounts;
  }

  lemma HasChildrenAppend(accounts: seq<Account>, a: Account, p: nat)
    ensures HasChildren(accounts + [a], p) <==> HasChildren(accounts, p) || a.parent == Some(p)
  {
    var x := accounts + [a];
    assert x[|accounts|] == a;
    assert forall i | 0 <= i < |accounts| :: x[i] == accounts[i];
  }

  lemma {:induction false} ChildlessSum(accounts: seq<Account>, p: nat)
    ensures !HasChildren(accounts, p) ==> ChildSum(accounts, p) == 0
    decreases |accounts|
  {
    if accounts != [] && !HasChildren(accounts, p) {
      var n := |accounts| - 1;
      assert !HasChildren(accounts[..n], p) by {
        assert forall i | 0 <= i < n :: accounts[..n][i] == accounts[i];
      }
      ChildlessSum(accounts[..n], p);
    }
  }

  // ---- the tables -------------------------------------------------------

  class AccountStore {
    var accounts: seq<Account>
    var entries: seq<Entry>

    function View(): Books
      reads this
    {
      Books(accounts, entries)
    }

    constructor (accounts: seq<Account>)
      ensures View() == Books(accounts, [])
    {
      this.accounts, this.entries := accounts, [];
    }

    /** `get_account`. */
    method GetAccount(iban: int) returns (r: Result<nat, Error>)
      ensures r == if Owned(View(), iban) then Ok(iban) else Err(AccountNotFound)
    {
      if 0 <= iban < |accounts| {
        return Ok(iban);
      }
      return Err(AccountNotFound);
    }

    /** `write_entry`: on an error nothing is written. */
    method WriteEntry(i: nat, amount: int, currency: int, side: Side, payment: Option<nat>)
      returns (r: Result<(), Error>)
      requires i < |accounts|
      modifies this
      ensures match Write(old(View()), i, amount, currency, side, payment)
              case Ok(b) => r == Ok(()) && View() == b
              case Err(e) => r == Err(e) && View() == old(View())
      ensures r == if currency != old(accounts[i]).currency then Err(CurrencyMismatch)
                   else if side == Debit && old(accounts[i]).balance < amount then Err(InsufficientFunds)
                   else Ok(())
      ensures r.Ok? ==>
                var after := old(accounts[i]).balance + if side == Debit then -amount else amount;
                && accounts == old(accounts)[i := old(accounts[i]).(balance := after, available := after)]
                && |entries| == |old(entries)| + 1 && entries[..|old(entries)|] == old(entries)
                && entries[|old(entries)|].account == i && entries[|old(entries)|].side == side
                && entries[|old(entries)|].balanceAfter == after
    {
      var account := accounts[i];
      if currency != account.currency {
        return Err(CurrencyMismatch);
      }
      var delta := if side == Credit then amount else -amount;
      var newBalance := account.balance + delta;
      if side == Debit && newBalance < 0 {
        return Err(InsufficientFunds);
      }
      accounts := accounts[i := account.(balance := newBalance, available := newBalance)];
      entries := entries + [Entry(i, Absolute(delta), side, currency, newBalance, payment)];
      return Ok(());
    }

    /** `_check_pool_sum`. */
    method CheckPoolSum(p: nat) returns (r: Result<(), Error>)
      requires p < |accounts|
      ensures r == if PoolOk(accounts, p) then Ok(()) else Err(InternalError)
    {
      var children, childSum := false, 0;
      for i := 0 to |accounts|
        invariant children <==> exists j | 0 <= j < i :: accounts[j].parent == Some(p)
        invariant childSum == ChildSum(accounts[..i], p)
      {
        assert accounts[..i + 1][..i] == accounts[..i];
        if accounts[i].parent == Some(p) {
          children := true;
          childSum := childSum + accounts[i].balance;
        }
      }
      assert accounts[..|accounts|] == accounts;
      if children && accounts[p].balance != childSum {
        return Err(InternalError);
      }
      return Ok(());
    }

    /** `_assert_pool_invariant`. */
    method AssertPoolInvariant(i: nat) returns (r: Result<(), Error>)
      requires i < |accounts| && ParentsExist(accounts)
      ensures r == if LocallyOk(accounts, i) then Ok(()) else Err(InternalError)
    {
      hide PoolOk;
      if accounts[i].kind == MerchantVan && accounts[i].parent.Some? {
        r := CheckPoolSum(accounts[i].parent.value);
      } else if accounts[i].kind == Pool {
        r := CheckPoolSum(i);
      } else {
        r := Ok(());
      }
    }

    /** `internal_transfer`, with the rollback of the session it raises through. */
    method InternalTransfer(src: int, dst: int, amount: int, currency: int) returns (r: Result<(), Error>)
      requires ParentsExist(accounts)
      modifies this
      ensures match Transfer(old(View()), src, dst, amount, currency)
              case Ok(b) => r == Ok(()) && View() == b
              case Err(e) => r == Err(e) && View() == old(View())
    {
      var from := GetAccount(src);
      if from.Err? {
        return Err(from.error);
      }
      var to := GetAccount(dst);
      if to.Err? {
        return Err(to.error);
      }
      if Usable(accounts[src]).Err? {
        return Usable(accounts[src]);
      }
      if Usable(accounts[dst]).Err? {
        return Usable(accounts[dst]);
      }
      if accounts[src].currency != accounts[dst].currency {
        return Err(CurrencyMismatch);
      }
      var savedAccounts, savedEntries := accounts, entries;
      ghost var before := View();
      ParentsKept(before, src, dst, amount, currency);
      hide LocallyOk, ParentsExist, Usable;
      r := WriteEntry(src, amount, currency, Debit, None);
      if r.Ok? {
        r := WriteEntry(dst, amount, currency, Credit, None);
      }
      if r.Ok? {
        r := AssertPoolInvariant(src);
        if r.Ok? {
          r := AssertPoolInvariant(dst);
        }
      }
      if r.Err? {
        accounts, entries := savedAccounts, savedEntries;
      }
    }
  }

  lemma ParentsKept(b: Books, src: nat, dst: nat, amount: int, currency: int)
    requires ParentsExist(b.accounts) && src < |b.accounts| && dst < |b.accounts|
    ensures var m := Move(b, src, dst, amount, currency, None);
            m.Ok? ==> |m.value.accounts| == |b.accounts| && ParentsExist(m.value.accounts)
  {
  }
}
