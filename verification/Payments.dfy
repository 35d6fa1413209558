/**
  The payment lifecycle: `bank/payments.py`, and `initiate_payment` of `bank/api.py`.

  An instruction's end-to-end id is its index in the table, which only grows. A payment job is
  redelivered whenever the scheduler's own transaction is lost after its handlers have committed.
*/
module Payments {
  import opened Prelude
  import opened Calendar
  import opened Ledger
  import Sim = SimScheduler

  datatype PaymentStatus = Accepted | Settled | Rejected

  datatype Payment = Payment(
    tenant: int, debtor: int, creditor: int, amount: int, currency: int,
    status: PaymentStatus, reason: Option<Error>)

  datatype Bank = Bank(books: Books, payments: seq<Payment>)

  datatype Reply = NotFound | Done(status: PaymentStatus) | Refused(reason: Error) | Paid | Raised(error: Error)

  /** `_check_debtor`. */
  function CheckDebtor(b: Books, p: Payment): Option<Error> {
    if !Owned(b, p.debtor) then Some(AccountNotFound)
    else if b.accounts[p.debtor].status == Closed then Some(AccountClosed)
    else if b.accounts[p.debtor].status == Dormant then Some(AccountDormant)
    else if b.accounts[p.debtor].balance < p.amount then Some(InsufficientFunds)
    else None
  }

  /** The entries of a payment: a debit and, if the simulator owns the creditor, a credit. */
  function Entries(b: Books, p: Payment, id: nat): Result<Books, Error>
    requires Owned(b, p.debtor)
  {
    if Owned(b, p.creditor) then Move(b, p.debtor, p.creditor, p.amount, p.currency, Some(id))
    else Write(b, p.debtor, p.amount, p.currency, Debit, Some(id))
  }

  predicate Mine(bank: Bank, tenant: int, id: int) {
    0 <= id < |bank.payments| && bank.payments[id].tenant == tenant
  }

  /** `process_payment`, and what it answers; when it raises, the session rolls back. */
  function Process(bank: Bank, tenant: int, id: int): (Bank, Reply) {
    if !Mine(bank, tenant, id) then (bank, NotFound)
    else
      var p := bank.payments[id];
      var refusal := CheckDebtor(bank.books, p);
      if p.status != Accepted then (bank, Done(p.status))
      else if refusal.Some? then
        (bank.(payments := bank.payments[id := p.(status := Rejected, reason := refusal)]), Refused(refusal.value))
      else
        var booked := Entries(bank.books, p, id);
        if booked.Err? then (bank, Raised(booked.error))
        else (Bank(booked.value, bank.payments[id := p.(status := Settled)]), Paid)
  }

  /** `initiate_payment`, once the request has passed its idempotency check. */
  function Initiate(bank: Bank, tenant: int, debtor: int, creditor: int, amount: int, currency: int): Bank {
    if Owned(bank.books, debtor) then
      bank.(payments := bank.payments + [Payment(tenant, debtor, creditor, amount, currency, Accepted, None)])
    else bank
  }

  /** What `create_account` and the foreign key demand of a new account. */
  predicate Openable(accounts: seq<Account>, a: Account) {
    && (a.kind == MerchantVan ==> a.parent.Some?)
    && (a.parent.Some? ==> a.parent.value < |accounts|)
  }

  /** `create_account`: an active account, of any kind and with any existing parent, that holds nothing. */
  function OpenAccount(b: Books, a: Account): Books {
    if Openable(b.accounts, a) then b.(accounts := b.accounts + [a.(status := Active, balance := 0, available := 0)])
    else b
  }

  // ---- runs -------------------------------------------------------------

  datatype Step =
    | Open(account: Account)
    | Ask(tenant: int, debtor: int, creditor: int, amount: int, currency: int)
    | Run(tenant: int, id: int)
    | Shift(src: int, dst: int, amount: int, currency: int)

  function Apply(bank: Bank, step: Step): Bank {
    match step
    case Open(a) => bank.(books := OpenAccount(bank.books, a))
    case Ask(tenant, debtor, creditor, amount, currency) => Initiate(bank, tenant, debtor, creditor, amount, currency)
    case Run(tenant, id) => Process(bank, tenant, id).0
    case Shift(src, dst, amount, currency) =>
      var t := Transfer(bank.books, src, dst, amount, currency);
      if t.Ok? then bank.(books := t.value) else bank
  }

  function Exec(bank: Bank, steps: seq<Step>): Bank
    decreases |steps|
  {
    if steps == [] then bank else Exec(Apply(bank, steps[0]), steps[1..])
  }

  // ---- what a step does to the tables -----------------------------------

  /** The entries a step adds. */
  function Added(bank: Bank, step: Step): seq<Entry>
  {
    var n, m := |bank.books.entries|, |Apply(bank, step).books.entries|;
    if n <= m then Apply(bank, step).books.entries[n..] else []
  }

  /** What a payment's own entries are. */
  ghost predicate PaymentEntries(b: Books, p: Payment, id: nat, added: seq<Entry>) {
    && |added| == (if Owned(b, p.creditor) then 2 else 1)
    && (added[0].account == p.debtor && added[0].amount == Absolute(p.amount) && added[0].side == Debit
        && added[0].currency == p.currency && added[0].payment == Some(id))
    && (Owned(b, p.creditor) ==>
          added[1].account == p.creditor && added[1].amount == Absolute(p.amount) && added[1].side == Credit
          && added[1].currency == p.currency && added[1].payment == Some(id))
  }

  ghost predicate Settles(bank: Bank, step: Step) {
    step.Run? && Process(bank, step.tenant, step.id).1 == Paid
  }

  lemma EntriesAdded(b: Books, p: Payment, id: nat)
    requires Owned(b, p.debtor) && Entries(b, p, id).Ok?
    ensures var c := Entries(b, p, id).value;
            && |c.accounts| == |b.accounts| && b.entries <= c.entries
            && PaymentEntries(b, p, id, c.entries[|b.entries|..])
  {
    if Owned(b, p.creditor) {
      var m := Write(b, p.debtor, p.amount, p.currency, Debit, Some(id)).value;
      WriteShape(b, p.debtor, p.amount, p.currency, Debit, Some(id));
      WriteShape(m, p.creditor, p.amount, p.currency, Credit, Some(id));
    } else {
      WriteShape(b, p.debtor, p.amount, p.currency, Debit, Some(id));
    }
  }

  /** A settlement marks its instruction and adds the instruction's entries. */
  lemma SettleShape(bank: Bank, step: Step)
    requires Settles(bank, step)
    ensures step.Run? && Mine(bank, step.tenant, step.id)
    ensures var p, t := bank.payments[step.id], Apply(bank, step);
            && p.status == Accepted && Owned(bank.books, p.debtor) && CheckDebtor(bank.books, p) == None
            && Entries(bank.books, p, step.id) == Ok(t.books)
            && t.payments == bank.payments[step.id := p.(status := Settled)]
            && |t.books.accounts| == |bank.books.accounts|
            && bank.books.entries <= t.books.entries
            && t.books.entries == bank.books.entries + Added(bank, step)
            && PaymentEntries(bank.books, p, step.id, Added(bank, step))
  {
    var p := bank.payments[step.id];
    EntriesAdded(bank.books, p, step.id);
    hide Entries;
  }

  lemma TransferEntries(b: Books, src: int, dst: int, amount: int, currency: int)
    requires Transfer(b, src, dst, amount, currency).Ok?
    ensures var c := Transfer(b, src, dst, amount, currency).value;
            && |c.accounts| == |b.accounts| && b.entries <= c.entries
            && forall k | |b.entries| <= k < |c.entries| :: c.entries[k].payment == None
  {
    TransferIs(b, src, dst, amount, currency);
    var m := Write(b, src, amount, currency, Debit, None).value;
    WriteShape(b, src, amount, currency, Debit, None);
    WriteShape(m, dst, amount, currency, Credit, None);
    hide Transfer, LocallyOk;
  }

  /** Any other step adds no payment's entries and settles nothing. */
  lemma OtherShape(bank: Bank, step: Step)
    requires !Settles(bank, step)
    ensures var t := Apply(bank, step);
            && |bank.books.accounts| <= |t.books.accounts|
            && bank.books.entries <= t.books.entries
            && t.books.entries == bank.books.entries + Added(bank, step)
            && (forall k | 0 <= k < |Added(bank, step)| :: Added(bank, step)[k].payment == None)
            && |bank.payments| <= |t.payments|
            && (forall id | 0 <= id < |bank.payments| ::
                  t.payments[id] == bank.payments[id]
                  || (bank.payments[id].status == Accepted
                      && t.payments[id] == bank.payments[id].(status := Rejected, reason := t.payments[id].reason)))
            && (forall id | |bank.payments| <= id < |t.payments| :: t.payments[id].status == Accepted)
  {
    match step {
      case Shift(src, dst, amount, currency) =>
        if Transfer(bank.books, src, dst, amount, currency).Ok? {
          TransferEntries(bank.books, src, dst, amount, currency);
        }
        hide Transfer;
      case Run(tenant, id) => hide Entries;
      case _ =>
    }
  }

  // ---- a payment moves money at most once -------------------------------

  function CountFor(entries: seq<Entry>, id: nat, side: Side): nat {
    if entries == [] then 0
    else
      var e := entries[|entries| - 1];
      CountFor(entries[..|entries| - 1], id, side) + if e.payment == Some(id) && e.side == side then 1 else 0
  }

  /** The debit is of the debtor, the credit of the creditor, and both are of the instructed amount. */
  ghost predicate Fits(payments: seq<Payment>, e: Entry) {
    e.payment.Some? ==>
      && e.payment.value < |payments|
      && var p := payments[e.payment.value];
         e.account == (if e.side == Debit then p.debtor else p.creditor)
         && e.amount == Absolute(p.amount) && e.currency == p.currency
  }

  /** Exactly one debit if settled, none otherwise; never more credits than debits. */
  ghost predicate Once(bank: Bank, id: nat)
    requires id < |bank.payments|
  {
    && CountFor(bank.books.entries, id, Debit) == (if bank.payments[id].status == Settled then 1 else 0)
    && CountFor(bank.books.entries, id, Credit) <= CountFor(bank.books.entries, id, Debit)
  }

  ghost predicate PaidOnce(bank: Bank) {
    && (forall id | 0 <= id < |bank.payments| :: Once(bank, id))
    && (forall k | 0 <= k < |bank.books.entries| :: Fits(bank.payments, bank.books.entries[k]))
  }

  /** What an instruction may become: settled and rejected are final. */
  ghost predicate Became(p: Payment, q: Payment) {
    q == p || (p.status == Accepted && q == p.(status := q.status, reason := q.reason))
  }

  ghost predicate Later(bank: Bank, t: Bank) {
    && |bank.payments| <= |t.payments|
    && (forall id | 0 <= id < |bank.payments| :: Became(bank.payments[id], t.payments[id]))
    && bank.books.entries <= t.books.entries
    && |bank.books.accounts| <= |t.books.accounts|
  }

  lemma {:induction false} CountConcat(x: seq<Entry>, y: seq<Entry>, id: nat, side: Side)
    ensures CountFor(x + y, id, side) == CountFor(x, id, side) + CountFor(y, id, side)
    decreases |y|
  {
    if y == [] {
      assert x + y == x;
    } else {
      assert (x + y)[..|x + y| - 1] == x + y[..|y| - 1];
      CountConcat(x, y[..|y| - 1], id, side);
    }
  }

  lemma {:induction false} CountNone(x: seq<Entry>, id: nat, side: Side)
    requires forall k | 0 <= k < |x| :: x[k].payment != Some(id)
    ensures CountFor(x, id, side) == 0
    decreases |x|
  {
    if x != [] {
      CountNone(x[..|x| - 1], id, side);
    }
  }

  lemma CountOwn(b: Books, p: Payment, id: nat, added: seq<Entry>)
    requires PaymentEntries(b, p, id, added)
    ensures CountFor(added, id, Debit) == 1
    ensures CountFor(added, id, Credit) == if Owned(b, p.creditor) then 1 else 0
  {
    assert added[..|added| - 1] == if |added| == 2 then [added[0]] else [];
    assert |added| == 2 ==> [added[0]][..0] == [];
    assert CountFor([], id, Debit) == 0 && CountFor([], id, Credit) == 0;
  }

  lemma StepCounts(bank: Bank, step: Step, id: nat, side: Side)
    ensures CountFor(Apply(bank, step).books.entries, id, side)
         == CountFor(bank.books.entries, id, side)
            + if !Settles(bank, step) || step.id != id then 0
              else if side == Debit || Owned(bank.books, bank.payments[id].creditor) then 1 else 0
  {
    hide Apply, CountFor, Settles;
    var added := Added(bank, step);
    CountConcat(bank.books.entries, added, id, side);
    if Settles(bank, step) {
      SettleShape(bank, step);
      if step.id == id {
        CountOwn(bank.books, bank.payments[id], id, added);
      } else {
        CountNone(added, id, side);
      }
    } else {
      OtherShape(bank, step);
      CountNone(added, id, side);
    }
  }

  lemma StepLater(bank: Bank, step: Step)
    ensures Later(bank, Apply(bank, step))
  {
    hide Apply, Settles, Added, Process;
    if Settles(bank, step) {
      SettleShape(bank, step);
    } else {
      OtherShape(bank, step);
    }
  }

  lemma StepOnce(bank: Bank, step: Step, id: nat)
    requires PaidOnce(bank) && id < |Apply(bank, step).payments|
    ensures Once(Apply(bank, step), id)
  {
    hide Apply, CountFor, Settles, Added, Process;
    StepCounts(bank, step, id, Debit);
    StepCounts(bank, step, id, Credit);
    if Settles(bank, step) {
      SettleShape(bank, step);
      assert Once(bank, id);
    } else {
      OtherShape(bank, step);
      if id < |bank.payments| {
        assert Once(bank, id);
      } else {
        NoEntriesYet(bank, id);
      }
    }
  }

  lemma NoEntriesYet(bank: Bank, id: nat)
    requires PaidOnce(bank) && id >= |bank.payments|
    ensures CountFor(bank.books.entries, id, Debit) == 0 && CountFor(bank.books.entries, id, Credit) == 0
  {
    forall k | 0 <= k < |bank.books.entries| ensures bank.books.entries[k].payment != Some(id) {
      assert Fits(bank.payments, bank.books.entries[k]);
    }
    CountNone(bank.books.entries, id, Debit);
    CountNone(bank.books.entries, id, Credit);
  }

  lemma FitsLater(bank: Bank, t: Bank, e: Entry)
    requires Fits(bank.payments, e) && Later(bank, t)
    ensures Fits(t.payments, e)
  {
    assert e.payment.Some? ==> Became(bank.payments[e.payment.value], t.payments[e.payment.value]);
  }

  lemma StepFits(bank: Bank, step: Step, k: nat)
    requires PaidOnce(bank) && k < |Apply(bank, step).books.entries|
    ensures Fits(Apply(bank, step).payments, Apply(bank, step).books.entries[k])
  {
    hide Apply, CountFor, Settles, Added, Process, Once;
    StepLater(bank, step);
    if k < |bank.books.entries| {
      FitsLater(bank, Apply(bank, step), bank.books.entries[k]);
    } else if Settles(bank, step) {
      SettleShape(bank, step);
    } else {
      OtherShape(bank, step);
    }
  }

  /** Every step: initiation, processing, whether first or repeated, transfer, new account. */
  lemma StepPaysOnce(bank: Bank, step: Step)
    requires PaidOnce(bank)
    ensures PaidOnce(Apply(bank, step)) && Later(bank, Apply(bank, step))
  {
    hide Apply, CountFor, PaidOnce, Once, Fits, Later;
    StepLater(bank, step);
    forall id | 0 <= id < |Apply(bank, step).payments| ensures Once(Apply(bank, step), id) {
      StepOnce(bank, step, id);
    }
    forall k | 0 <= k < |Apply(bank, step).books.entries|
      ensures Fits(Apply(bank, step).payments, Apply(bank, step).books.entries[k])
    {
      StepFits(bank, step, k);
    }
    PaidOnceFrom(Apply(bank, step));
  }

  lemma PaidOnceFrom(bank: Bank)
    requires forall id | 0 <= id < |bank.payments| :: Once(bank, id)
    requires forall k | 0 <= k < |bank.books.entries| :: Fits(bank.payments, bank.books.entries[k])
    ensures PaidOnce(bank)
  {
    hide Once, Fits;
  }

  lemma LaterTrans(a: Bank, b: Bank, c: Bank)
    requires Later(a, b) && Later(b, c)
    ensures Later(a, c)
  {
    forall id | 0 <= id < |a.payments| ensures Became(a.payments[id], c.payments[id]) {
      assert Became(a.payments[id], b.payments[id]) && Became(b.payments[id], c.payments[id]);
    }
  }

  lemma LaterSame(bank: Bank)
    ensures Later(bank, bank)
  {
  }

  /**
    Over every run a payment moves money at most once, and exactly once if it is settled: one
    debit of its debtor, at most one credit of its creditor, of its amount; and settled and
    rejected payments never change again.
  */
  lemma {:induction false} RunPaysOnce(bank: Bank, steps: seq<Step>)
    requires PaidOnce(bank)
    ensures PaidOnce(Exec(bank, steps)) && Later(bank, Exec(bank, steps))
    decreases |steps|
  {
    hide Apply, PaidOnce, Later;
    if steps == [] {
      LaterSame(bank);
    } else {
      StepPaysOnce(bank, steps[0]);
      RunPaysOnce(Apply(bank, steps[0]), steps[1..]);
      LaterTrans(bank, Apply(bank, steps[0]), Exec(bank, steps));
    }
  }

  // ---- money in total ---------------------------------------------------

  /** What a payment took out of the simulator: it settled, and no owned account was credited. */
  function Leak(bank: Bank, id: nat, currency: int): int
    requires id < |bank.payments|
  {
    var p := bank.payments[id];
    if p.status == Settled && p.currency == currency && CountFor(bank.books.entries, id, Credit) == 0 then p.amount
    else 0
  }

  function Gone(bank: Bank, n: nat, currency: int): int
    requires n <= |bank.payments|
  {
    if n == 0 then 0 else Gone(bank, n - 1, currency) + Leak(bank, n - 1, currency)
  }

  /** One step changes the leak of one payment at most. */
  lemma {:induction false} GoneChanges(bank: Bank, t: Bank, n: nat, id: nat, change: int, currency: int)
    requires n <= |bank.payments| && n <= |t.payments|
    requires forall k | 0 <= k < n :: Leak(t, k, currency) == Leak(bank, k, currency) + if k == id then change else 0
    ensures Gone(t, n, currency) == Gone(bank, n, currency) + if id < n then change else 0
    decreases n
  {
    hide Leak;
    if n > 0 {
      GoneChanges(bank, t, n - 1, id, change, currency);
    }
  }

  lemma {:induction false} GoneNothing(t: Bank, m: nat, n: nat, currency: int)
    requires m <= n <= |t.payments| && forall k | m <= k < n :: Leak(t, k, currency) == 0
    ensures Gone(t, n, currency) == Gone(t, m, currency)
    decreases n
  {
    hide Leak;
    if m < n {
      GoneNothing(t, m, n - 1, currency);
    }
  }

  lemma BookedMoney(b: Books, p: Payment, id: nat, currency: int)
    requires Owned(b, p.debtor) && Entries(b, p, id).Ok?
    ensures Money(Entries(b, p, id).value.accounts, currency)
         == Money(b.accounts, currency) - if p.currency == currency && !Owned(b, p.creditor) then p.amount else 0
  {
    hide Money;
    MoneyMoves(b.accounts, p.debtor, -p.amount, currency);
    if Owned(b, p.creditor) {
      MoveShape(b, p.debtor, p.creditor, p.amount, p.currency, Some(id));
      MoneyMoves(Rebalanced(b.accounts, p.debtor, -p.amount), p.creditor, p.amount, currency);
      hide Move;
    } else {
      WriteShape(b, p.debtor, p.amount, p.currency, Debit, Some(id));
      assert Write(b, p.debtor, p.amount, p.currency, Debit, Some(id)).value.accounts
          == Rebalanced(b.accounts, p.debtor, -p.amount);
    }
  }

  lemma OtherMoney(bank: Bank, step: Step, currency: int)
    requires !Settles(bank, step)
    ensures Money(Apply(bank, step).books.accounts, currency) == Money(bank.books.accounts, currency)
  {
    match step {
      case Shift(src, dst, amount, c) =>
        if Transfer(bank.books, src, dst, amount, c).Ok? {
          TransferKeepsMoney(bank.books, src, dst, amount, c, currency);
        }
        hide Transfer, Money;
      case Open(a) =>
        var x := bank.books.accounts;
        assert (x + [a.(status := Active, balance := 0, available := 0)])[..|x|] == x;
      case _ => hide Entries;
    }
  }

  lemma NoCreditYet(bank: Bank, id: nat)
    requires PaidOnce(bank) && id < |bank.payments| && bank.payments[id].status != Settled
    ensures CountFor(bank.books.entries, id, Credit) == 0
  {
    hide Fits, CountFor;
    assert Once(bank, id);
  }

  lemma StepConserves(bank: Bank, step: Step, currency: int)
    requires PaidOnce(bank)
    ensures var t := Apply(bank, step);
            Money(t.books.accounts, currency) + Gone(t, |t.payments|, currency)
            == Money(bank.books.accounts, currency) + Gone(bank, |bank.payments|, currency)
  {
    hide Apply, CountFor, Settles, Added, Process, Entries, PaidOnce, Money, Gone;
    var t, n := Apply(bank, step), |bank.payments|;
    if Settles(bank, step) {
      SettleShape(bank, step);
    }
    forall k | 0 <= k < n
      ensures CountFor(t.books.entries, k, Credit) == CountFor(bank.books.entries, k, Credit)
           + if !Settles(bank, step) || step.id != k then 0
             else if Owned(bank.books, bank.payments[k].creditor) then 1 else 0
    {
      StepCounts(bank, step, k, Credit);
    }
    if Settles(bank, step) {
      SettleShape(bank, step);
      NoCreditYet(bank, step.id);
      BookedMoney(bank.books, bank.payments[step.id], step.id, currency);
      var p := bank.payments[step.id];
      GoneChanges(bank, t, n, step.id,
                  if p.currency == currency && !Owned(bank.books, p.creditor) then p.amount else 0, currency);
    } else {
      OtherShape(bank, step);
      OtherMoney(bank, step, currency);
      GoneChanges(bank, t, n, 0, 0, currency);
      GoneNothing(t, n, |t.payments|, currency);
    }
  }

  /**
    Over every run, the money in the accounts of each currency falls by exactly the amounts of the
    settled payments whose creditor no account of the simulator owned, and by nothing else.
  */
  lemma {:induction false} RunConserves(bank: Bank, steps: seq<Step>, currency: int)
    requires PaidOnce(bank)
    ensures var t := Exec(bank, steps);
            Money(t.books.accounts, currency) + Gone(t, |t.payments|, currency)
            == Money(bank.books.accounts, currency) + Gone(bank, |bank.payments|, currency)
    decreases |steps|
  {
    hide Apply, PaidOnce, Money, Gone, Later;
    if steps != [] {
      StepConserves(bank, steps[0], currency);
      StepPaysOnce(bank, steps[0]);
      RunConserves(Apply(bank, steps[0]), steps[1..], currency);
    }
  }

  // ---- soundness of the ledger ------------------------------------------

  /** The step books entries of a negative amount. */
  ghost predicate BooksNegative(bank: Bank, step: Step) {
    || (Settles(bank, step) && bank.payments[step.id].amount < 0)
    || (step.Shift? && step.amount < 0
        && Transfer(bank.books, step.src, step.dst, step.amount, step.currency).Ok?)
  }

  ghost predicate NoNegative(bank: Bank, steps: seq<Step>)
    decreases |steps|
  {
    steps == [] || (!BooksNegative(bank, steps[0]) && NoNegative(Apply(bank, steps[0]), steps[1..]))
  }

  /** The opening balances, those of accounts opened since being nothing. */
  ghost function Grown(opening: seq<int>, accounts: seq<Account>): seq<int> {
    if |opening| <= |accounts| then opening + seq(|accounts| - |opening|, _ => 0) else opening
  }

  lemma SettleSound(opening: seq<int>, bank: Bank, step: Step)
    requires Sound(opening, bank.books) && Solvent(bank.books) && Settles(bank, step)
    requires !BooksNegative(bank, step)
    ensures Sound(opening, Apply(bank, step).books) && Solvent(Apply(bank, step).books)
  {
    SettleShape(bank, step);
    var p := bank.payments[step.id];
    hide Apply, Settles, Added, Process, Sound, Solvent, Move, Write;
    if Owned(bank.books, p.creditor) {
      MoveKeepsSoundIff(opening, bank.books, p.debtor, p.creditor, p.amount, p.currency, Some(step.id));
    } else {
      WriteKeepsSoundIff(opening, bank.books, p.debtor, p.amount, p.currency, Debit, Some(step.id));
      WriteKeepsSolventIff(bank.books, p.debtor, p.amount, p.currency, Debit, Some(step.id));
    }
  }

  lemma ShiftSound(opening: seq<int>, b: Books, src: int, dst: int, amount: int, currency: int)
    requires Sound(opening, b) && Solvent(b) && amount >= 0 && Transfer(b, src, dst, amount, currency).Ok?
    ensures Sound(opening, Transfer(b, src, dst, amount, currency).value)
    ensures Solvent(Transfer(b, src, dst, amount, currency).value)
  {
    TransferIs(b, src, dst, amount, currency);
    hide Sound, Solvent, Move, Transfer, LocallyOk;
    MoveKeepsSoundIff(opening, b, src, dst, amount, currency, None);
  }

  lemma {:induction false} PostedNone(entries: seq<Entry>, i: nat)
    requires forall k | 0 <= k < |entries| :: entries[k].account < i
    ensures Posted(entries, i) == 0
    decreases |entries|
  {
    if entries != [] {
      PostedNone(entries[..|entries| - 1], i);
    }
  }

  lemma OpenSound(opening: seq<int>, b: Books, a: Account)
    requires Sound(opening, b) && Solvent(b) && a.balance == a.available == 0
    ensures Sound(opening + [0], b.(accounts := b.accounts + [a])) && Solvent(b.(accounts := b.accounts + [a]))
  {
    hide Posted;
    var c, o := b.(accounts := b.accounts + [a]), opening + [0];
    forall k | 0 <= k < |c.entries| ensures Accounted(o, c.entries, k) {
      assert Accounted(opening, b.entries, k);
    }
    forall i | 0 <= i < |c.accounts| ensures Balanced(o, c, i) {
      if i < |b.accounts| {
        assert Balanced(opening, b, i);
      } else {
        forall k | 0 <= k < |b.entries| ensures b.entries[k].account < i {
          assert Accounted(opening, b.entries, k);
        }
        PostedNone(b.entries, i);
      }
    }
  }

  lemma StepSound(opening: seq<int>, bank: Bank, step: Step)
    requires Sound(opening, bank.books) && Solvent(bank.books) && !BooksNegative(bank, step)
    ensures var t := Apply(bank, step);
            && opening <= Grown(opening, t.books.accounts)
            && Sound(Grown(opening, t.books.accounts), t.books) && Solvent(t.books)
  {
    SoundLength(opening, bank.books);
    hide Sound, Solvent, Transfer, Entries;
    var t := Apply(bank, step);
    if Settles(bank, step) {
      SettleSound(opening, bank, step);
      SettleShape(bank, step);
      assert Grown(opening, t.books.accounts) == opening;
    } else {
      match step {
        case Shift(src, dst, amount, currency) =>
          if Transfer(bank.books, src, dst, amount, currency).Ok? {
            ShiftSound(opening, bank.books, src, dst, amount, currency);
            TransferEntries(bank.books, src, dst, amount, currency);
          }
          assert Grown(opening, t.books.accounts) == opening;
        case Open(a) =>
          if Openable(bank.books.accounts, a) {
            OpenSound(opening, bank.books, a.(status := Active, balance := 0, available := 0));
            assert Grown(opening, t.books.accounts) == opening + [0];
          } else {
            assert Grown(opening, t.books.accounts) == opening;
          }
        case _ =>
          assert Grown(opening, t.books.accounts) == opening;
      }
    }
  }

  lemma SoundLength(opening: seq<int>, b: Books)
    requires Sound(opening, b)
    ensures |opening| == |b.accounts|
  {
  }

  /** The first entry of a step that books a negative amount. */
  lemma NegativeStays(opening: seq<int>, bank: Bank, step: Step, opening': seq<int>, later: Books)
    requires Sound(opening, bank.books) && BooksNegative(bank, step)
    requires Apply(bank, step).books.entries <= later.entries && opening <= opening'
    ensures !Sound(opening', later)
  {
    if Settles(bank, step) {
      SettleShape(bank, step);
      var p := bank.payments[step.id];
      DebitFirst(bank.books, p, step.id);
      hide Sound, Apply, Settles, Write, Move;
      NegativeUnsound(opening, bank.books, p.debtor, p.amount, p.currency, Debit, Some(step.id), opening', later);
    } else {
      ShiftFirst(bank.books, step.src, step.dst, step.amount, step.currency);
      assert Apply(bank, step).books == Transfer(bank.books, step.src, step.dst, step.amount, step.currency).value;
      hide Sound, Apply, Settles, Write, Transfer;
      NegativeUnsound(opening, bank.books, step.src, step.amount, step.currency, Debit, None, opening', later);
    }
  }

  lemma DebitFirst(b: Books, p: Payment, id: nat)
    requires Owned(b, p.debtor) && Entries(b, p, id).Ok?
    ensures Write(b, p.debtor, p.amount, p.currency, Debit, Some(id)).Ok?
    ensures Write(b, p.debtor, p.amount, p.currency, Debit, Some(id)).value.entries <= Entries(b, p, id).value.entries
  {
    if Owned(b, p.creditor) {
      var m := Write(b, p.debtor, p.amount, p.currency, Debit, Some(id)).value;
      WriteShape(b, p.debtor, p.amount, p.currency, Debit, Some(id));
      WriteShape(m, p.creditor, p.amount, p.currency, Credit, Some(id));
    }
  }

  lemma ShiftFirst(b: Books, src: int, dst: int, amount: int, currency: int)
    requires Transfer(b, src, dst, amount, currency).Ok?
    ensures Owned(b, src) && Write(b, src, amount, currency, Debit, None).Ok?
    ensures Write(b, src, amount, currency, Debit, None).value.entries
         <= Transfer(b, src, dst, amount, currency).value.entries
  {
    TransferIs(b, src, dst, amount, currency);
    var m := Write(b, src, amount, currency, Debit, None).value;
    WriteShape(b, src, amount, currency, Debit, None);
    WriteShape(m, dst, amount, currency, Credit, None);
    hide Transfer, LocallyOk;
  }

  lemma {:induction false} RunLater(bank: Bank, steps: seq<Step>)
    ensures Later(bank, Exec(bank, steps))
    decreases |steps|
  {
    hide Apply, Later;
    if steps == [] {
      LaterSame(bank);
    } else {
      StepLater(bank, steps[0]);
      RunLater(Apply(bank, steps[0]), steps[1..]);
      LaterTrans(bank, Apply(bank, steps[0]), Exec(bank, steps));
    }
  }

  lemma GrownTwice(opening: seq<int>, b: seq<Account>, c: seq<Account>)
    requires |opening| <= |b| <= |c|
    ensures Grown(Grown(opening, b), c) == Grown(opening, c)
    ensures opening <= Grown(opening, c)
  {
  }

  /**
    Ledger soundness over whole runs: every balance is its opening balance plus its signed entries,
    and every entry records the balance at its point, exactly if no negative amount was booked;
    and then no account is overdrawn.
  */
  lemma {:induction false} RunSoundIff(opening: seq<int>, bank: Bank, steps: seq<Step>)
    requires Sound(opening, bank.books) && Solvent(bank.books)
    ensures var t := Exec(bank, steps).books;
            && (Sound(Grown(opening, t.accounts), t) <==> NoNegative(bank, steps))
            && (NoNegative(bank, steps) ==> Solvent(t))
    decreases |steps|
  {
    SoundLength(opening, bank.books);
    RunLater(bank, steps);
    hide Sound, Solvent, Apply, BooksNegative;
    var t := Exec(bank, steps).books;
    if steps == [] {
      assert Grown(opening, t.accounts) == opening;
    } else {
      var m := Apply(bank, steps[0]);
      StepLater(bank, steps[0]);
      RunLater(m, steps[1..]);
      GrownTwice(opening, m.books.accounts, t.accounts);
      if BooksNegative(bank, steps[0]) {
        NegativeStays(opening, bank, steps[0], Grown(opening, t.accounts), t);
      } else {
        StepSound(opening, bank, steps[0]);
        RunSoundIff(Grown(opening, m.books.accounts), m, steps[1..]);
      }
    }
  }

  // ---- pools ------------------------------------------------------------

  /** A settled payment upsets no pool: it is neutral or, if the creditor is not owned, concerns none. */
  predicate PaymentNeutral(b: Books, p: Payment)
    requires Owned(b, p.debtor)
  {
    if Owned(b, p.creditor) then PoolNeutral(b.accounts, p.debtor, p.creditor, p.amount)
    else p.amount == 0 || (!Heads(b.accounts, p.debtor) && Under(b.accounts, p.debtor) == None)
  }

  /** Settling a payment checks no pool. It keeps every pool in balance exactly when it upsets none. */
  lemma PaymentKeepsPoolsIff(bank: Bank, step: Step)
    requires Settles(bank, step) && Pools(bank.books.accounts)
    ensures Mine(bank, step.tenant, step.id) && Owned(bank.books, bank.payments[step.id].debtor)
    ensures Pools(Apply(bank, step).books.accounts) <==> PaymentNeutral(bank.books, bank.payments[step.id])
  {
    SettleShape(bank, step);
    var p, accounts := bank.payments[step.id], bank.books.accounts;
    hide Apply, Settles, Added, Process, Pools, PoolNeutral, Heads, Under;
    if Owned(bank.books, p.creditor) {
      MoveShape(bank.books, p.debtor, p.creditor, p.amount, p.currency, Some(step.id));
      MoveKeepsPoolsIff(accounts, p.debtor, p.creditor, p.amount);
    } else {
      WriteShape(bank.books, p.debtor, p.amount, p.currency, Debit, Some(step.id));
      ChangeKeepsPoolsIff(accounts, p.debtor, -p.amount);
    }
  }

  /** The step upsets no pool. */
  ghost predicate StepNeutral(bank: Bank, step: Step) {
    var b := bank.books;
    match step
    case Open(a) =>
      Openable(b.accounts, a) && a.parent.Some? && b.accounts[a.parent.value].kind == Pool ==>
        HasChildren(b.accounts, a.parent.value) || b.accounts[a.parent.value].balance == 0
    case Ask(_, _, _, _, _) => true
    case Run(tenant, id) =>
      Settles(bank, step) && Mine(bank, tenant, id) && Owned(b, bank.payments[id].debtor) ==>
        PaymentNeutral(b, bank.payments[id])
    case Shift(src, dst, amount, currency) =>
      Transfer(b, src, dst, amount, currency).Ok? && Owned(b, src) && Owned(b, dst) ==>
        PoolNeutral(b.accounts, src, dst, amount)
  }

  lemma ProcessAccounts(bank: Bank, tenant: int, id: int)
    requires !Settles(bank, Run(tenant, id))
    ensures Apply(bank, Run(tenant, id)).books == bank.books
  {
    hide Entries, CheckDebtor;
  }

  lemma OpenKeepsPoolsIff(bank: Bank, a: Account)
    requires ParentsExist(bank.books.accounts) && Pools(bank.books.accounts)
    ensures ParentsExist(Apply(bank, Open(a)).books.accounts)
    ensures Pools(Apply(bank, Open(a)).books.accounts) <==> StepNeutral(bank, Open(a))
  {
    if Openable(bank.books.accounts, a) {
      OpeningKeepsPoolsIff(bank.books.accounts, a.(status := Active, balance := 0, available := 0));
    }
    hide Pools, ParentsExist, HasChildren;
  }

  lemma ShiftKeepsPoolsIff(bank: Bank, src: int, dst: int, amount: int, currency: int)
    requires Pools(bank.books.accounts)
    ensures Pools(Apply(bank, Shift(src, dst, amount, currency)).books.accounts) <==>
            StepNeutral(bank, Shift(src, dst, amount, currency))
  {
    TransferReturnsIff(bank.books, src, dst, amount, currency);
    hide Pools, Transfer, PoolNeutral, EndPasses;
  }

  lemma StepParents(bank: Bank, step: Step)
    requires ParentsExist(bank.books.accounts)
    ensures ParentsExist(Apply(bank, step).books.accounts)
  {
    match step {
      case Open(a) =>
      case Ask(_, _, _, _, _) =>
      case Run(tenant, id) =>
        if Settles(bank, step) {
          SettleParents(bank, step);
        } else {
          ProcessAccounts(bank, tenant, id);
        }
      case Shift(src, dst, amount, currency) =>
        TransferIs(bank.books, src, dst, amount, currency);
        if Transfer(bank.books, src, dst, amount, currency).Ok? {
          MovedSame(bank.books.accounts, src, dst, amount);
        }
        hide Transfer, Move, LocallyOk;
    }
  }

  lemma SettleParents(bank: Bank, step: Step)
    requires Settles(bank, step) && ParentsExist(bank.books.accounts)
    ensures ParentsExist(Apply(bank, step).books.accounts)
  {
    SettleShape(bank, step);
    var p := bank.payments[step.id];
    hide Apply, Settles, Added, Process;
    if Owned(bank.books, p.creditor) {
      MoveShape(bank.books, p.debtor, p.creditor, p.amount, p.currency, Some(step.id));
    } else {
      WriteShape(bank.books, p.debtor, p.amount, p.currency, Debit, Some(step.id));
    }
  }

  /** Every step: pools in balance are so after it exactly if it upsets none. */
  lemma StepKeepsPoolsIff(bank: Bank, step: Step)
    requires ParentsExist(bank.books.accounts) && Pools(bank.books.accounts)
    ensures ParentsExist(Apply(bank, step).books.accounts)
    ensures Pools(Apply(bank, step).books.accounts) <==> StepNeutral(bank, step)
  {
    StepParents(bank, step);
    match step {
      case Open(a) => OpenKeepsPoolsIff(bank, a);
      case Ask(_, _, _, _, _) =>
      case Run(tenant, id) =>
        hide Pools, PaymentNeutral, Process;
        if Settles(bank, step) {
          PaymentKeepsPoolsIff(bank, step);
        } else {
          ProcessAccounts(bank, tenant, id);
        }
      case Shift(src, dst, amount, currency) =>
        hide Pools;
        ShiftKeepsPoolsIff(bank, src, dst, amount, currency);
    }
  }

  /** The invariant F3 holds now and after every step. */
  ghost predicate PoolsThroughout(bank: Bank, steps: seq<Step>)
    decreases |steps|
  {
    Pools(bank.books.accounts) && (steps == [] || PoolsThroughout(Apply(bank, steps[0]), steps[1..]))
  }

  ghost predicate NeutralThroughout(bank: Bank, steps: seq<Step>)
    decreases |steps|
  {
    steps == [] || (StepNeutral(bank, steps[0]) && NeutralThroughout(Apply(bank, steps[0]), steps[1..]))
  }

  /** Over every run the invariant F3 holds after every operation if and only if none of them upsets a pool. */
  lemma {:induction false} RunKeepsPoolsIff(bank: Bank, steps: seq<Step>)
    requires ParentsExist(bank.books.accounts) && Pools(bank.books.accounts)
    ensures PoolsThroughout(bank, steps) <==> NeutralThroughout(bank, steps)
    decreases |steps|
  {
    hide Apply, StepNeutral, Pools, ParentsExist;
    if steps != [] {
      StepKeepsPoolsIff(bank, steps[0]);
      if StepNeutral(bank, steps[0]) {
        RunKeepsPoolsIff(Apply(bank, steps[0]), steps[1..]);
      }
    }
  }

  // ---- where the promises fail ------------------------------------------

  lemma ExecTwo(bank: Bank, a: Step, b: Step)
    ensures Exec(bank, [a, b]) == Apply(Apply(bank, a), b)
  {
    hide Apply;
    assert [a, b][1..] == [b] && [b][1..] == [];
    assert Exec(Apply(bank, a), [b]) == Exec(Apply(Apply(bank, a), b), []);
  }

  /** From one empty account, a payment of minus 5 settles, and the entries no longer explain the balance. */
  lemma NegativePaymentUnsound()
    ensures var bank := Bank(Books([Account(External, None, 1, Active, 0, 0)], []), []);
            var t := Exec(bank, [Ask(7, 0, 99, -5, 1), Run(7, 0)]);
            && Sound([0], bank.books) && Solvent(bank.books) && PaidOnce(bank)
            && |t.payments| == 1 && t.payments[0].status == Settled
            && Grown([0], t.books.accounts) == [0] && !Sound([0], t.books)
  {
    var bank := Bank(Books([Account(External, None, 1, Active, 0, 0)], []), []);
    ExecTwo(bank, Ask(7, 0, 99, -5, 1), Run(7, 0));
    var t := Exec(bank, [Ask(7, 0, 99, -5, 1), Run(7, 0)]);
    assert Sound([0], bank.books);
    assert t.books.accounts == [Account(External, None, 1, Active, 5, 5)];
    assert t.books.entries == [Entry(0, 5, Debit, 1, 5, Some(0))];
    PostedStep([], t.books.entries[0], 0);
    assert [] + [t.books.entries[0]] == t.books.entries;
    assert !Balanced([0], t.books, 0);
  }

  /** A virtual account under a pool, both holding 10, pays 4 to an unowned creditor: the pool is out of balance. */
  lemma UnownedPaymentBreaksPool()
    ensures var accounts := [Account(Pool, None, 1, Active, 10, 10), Account(MerchantVan, Some(0), 1, Active, 10, 10)];
            var t := Exec(Bank(Books(accounts, []), []), [Ask(7, 1, 99, 4, 1), Run(7, 0)]);
            && ParentsExist(accounts) && Pools(accounts)
            && |t.payments| == 1 && t.payments[0].status == Settled && !Pools(t.books.accounts)
  {
    var accounts := [Account(Pool, None, 1, Active, 10, 10), Account(MerchantVan, Some(0), 1, Active, 10, 10)];
    var bank := Bank(Books(accounts, []), []);
    ExecTwo(bank, Ask(7, 1, 99, 4, 1), Run(7, 0));
    assert ChildSum(accounts, 0) == 10 by { assert accounts[..1] == [accounts[0]]; }
    assert accounts[1].parent == Some(0);
    assert Pools(accounts);
    PaymentKeepsPoolsIff(Apply(bank, Ask(7, 1, 99, 4, 1)), Run(7, 0));
  }

  /** The first virtual account opened under a pool that holds 10 puts the pool out of balance. */
  lemma FirstChildBreaksPool()
    ensures var accounts := [Account(Pool, None, 1, Active, 10, 10)];
            var t := Exec(Bank(Books(accounts, []), []), [Open(Account(MerchantVan, Some(0), 1, Active, 0, 0))]);
            ParentsExist(accounts) && Pools(accounts) && !Pools(t.books.accounts)
  {
    var accounts := [Account(Pool, None, 1, Active, 10, 10)];
    var a := Account(MerchantVan, Some(0), 1, Active, 0, 0);
    assert [Open(a)][1..] == [];
    assert Exec(Bank(Books(accounts, []), []), [Open(a)]).books.accounts == accounts + [a];
    OpeningKeepsPoolsIff(accounts, a);
  }

  // ---- payments as scheduled jobs ---------------------------------------

  /** The payload of a `bank.process_payment` job. */
  datatype PayJob = PayJob(tenant: int, id: int)

  /** The job fails if `process_payment` raises. */
  function Handlers(): Sim.Registry<Bank, PayJob> {
    Sim.Registry(
      (p: PayJob) => true,
      (at: int, bank: Bank, j: Sim.Job<PayJob>) =>
        var r := Process(bank, j.payload.tenant, j.payload.id);
        Sim.Outcome(r.0, [], !r.1.Raised?))
  }

  /** A slice of an advance, and whether its own transaction commits after the handlers have. */
  datatype Slice = Slice(turn: Sim.Turn, committed: bool)

  /**
    When the slice's transaction is lost its jobs are pending again, though the clock has moved,
    what the handlers committed stays, and jobs they added are there.
  */
  ghost function AfterSlice(tenant: int, s: Sim.Sys<Bank, PayJob>, x: Slice): Sim.Sys<Bank, PayJob>
    requires Sim.Enabled(tenant, s, x.turn)
  {
    Sim.SliceEffect(Handlers(), tenant, s, x.turn);
    var t := Sim.RunSlice(Handlers(), tenant, s, x.turn);
    if x.committed then t else t.(jobs := s.jobs + t.jobs[|s.jobs|..])
  }

  ghost predicate LegalSlices(tenant: int, s: Sim.Sys<Bank, PayJob>, slices: seq<Slice>)
    decreases |slices|
  {
    slices == [] ||
    (Sim.Enabled(tenant, s, slices[0].turn) && LegalSlices(tenant, AfterSlice(tenant, s, slices[0]), slices[1..]))
  }

  ghost function AfterSlices(tenant: int, s: Sim.Sys<Bank, PayJob>, slices: seq<Slice>): Sim.Sys<Bank, PayJob>
    requires LegalSlices(tenant, s, slices)
    decreases |slices|
  {
    if slices == [] then s else AfterSlices(tenant, AfterSlice(tenant, s, slices[0]), slices[1..])
  }

  lemma {:induction false} ExecConcat(bank: Bank, x: seq<Step>, y: seq<Step>)
    ensures Exec(bank, x + y) == Exec(Exec(bank, x), y)
    decreases |x|
  {
    hide Apply;
    if x == [] {
      assert x + y == y;
    } else {
      assert (x + y)[1..] == x[1..] + y;
      ExecConcat(Apply(bank, x[0]), x[1..], y);
    }
  }

  function StepOf(j: Sim.Job<PayJob>): Step {
    Run(j.payload.tenant, j.payload.id)
  }

  /** Processing the payments of the listed jobs, in turn. */
  ghost function StepsOf(jobs: seq<Sim.Job<PayJob>>, order: seq<nat>): seq<Step>
    requires forall p | 0 <= p < |order| :: order[p] < |jobs|
  {
    seq(|order|, p requires 0 <= p < |order| => StepOf(jobs[order[p]]))
  }

  /** Processing, slice by slice, the payments of the jobs that are due then. */
  ghost function StepsIn(tenant: int, s: Sim.Sys<Bank, PayJob>, slices: seq<Slice>): seq<Step>
    requires LegalSlices(tenant, s, slices)
    decreases |slices|
  {
    if slices == [] then []
    else
      Sim.ListedAreJobs(tenant, s, slices[0].turn);
      StepsOf(s.jobs, slices[0].turn.order) + StepsIn(tenant, AfterSlice(tenant, s, slices[0]), slices[1..])
  }

  lemma JobIsStep(s: Sim.Sys<Bank, PayJob>, i: nat)
    requires i < |s.jobs|
    ensures var t := Sim.RunJob(Handlers(), s, i);
            && t.world == Apply(s.world, StepOf(s.jobs[i]))
            && |t.jobs| == |s.jobs|
            && (forall k | 0 <= k < |s.jobs| && k != i :: t.jobs[k] == s.jobs[k])
            && t.jobs[i] == s.jobs[i].(status :=
                 if Process(s.world, s.jobs[i].payload.tenant, s.jobs[i].payload.id).1.Raised? then Sim.Failed
                 else Sim.Fired)
  {
    hide Process;
  }

  lemma {:induction false} JobsAreSteps(s: Sim.Sys<Bank, PayJob>, order: seq<nat>)
    requires forall p | 0 <= p < |order| :: order[p] < |s.jobs|
    ensures Sim.RunJobs(Handlers(), s, order).world == Exec(s.world, StepsOf(s.jobs, order))
    decreases |order|
  {
    hide Apply, Handlers, Sim.RunJob, Process;
    if order != [] {
      var m := Sim.RunJob(Handlers(), s, order[0]);
      JobIsStep(s, order[0]);
      JobsAreSteps(m, order[1..]);
      var steps := StepsOf(s.jobs, order);
      assert steps[0] == StepOf(s.jobs[order[0]]);
      assert steps[1..] == StepsOf(m.jobs, order[1..]);
    }
  }

  lemma SliceIsSteps(tenant: int, s: Sim.Sys<Bank, PayJob>, x: Slice)
    requires Sim.Enabled(tenant, s, x.turn)
    ensures forall p | 0 <= p < |x.turn.order| :: x.turn.order[p] < |s.jobs|
    ensures AfterSlice(tenant, s, x).world == Exec(s.world, StepsOf(s.jobs, x.turn.order))
  {
    hide Exec, Handlers, Sim.RunJobs;
    Sim.ListedAreJobs(tenant, s, x.turn);
    JobsAreSteps(s.(clock := s.clock + x.turn.length), x.turn.order);
  }

  /**
    Whatever slices run, committed or lost, the bank goes through exactly the processing of the
    jobs that were due in each, in the order listed.
  */
  lemma {:induction false} SlicesAreSteps(tenant: int, s: Sim.Sys<Bank, PayJob>, slices: seq<Slice>)
    requires LegalSlices(tenant, s, slices)
    ensures AfterSlices(tenant, s, slices).world == Exec(s.world, StepsIn(tenant, s, slices))
    decreases |slices|
  {
    hide Apply, AfterSlice, Sim.Enabled, StepsOf;
    if slices != [] {
      SliceIsSteps(tenant, s, slices[0]);
      SlicesAreSteps(tenant, AfterSlice(tenant, s, slices[0]), slices[1..]);
      ExecConcat(s.world, StepsOf(s.jobs, slices[0].turn.order),
                 StepsIn(tenant, AfterSlice(tenant, s, slices[0]), slices[1..]));
    }
  }

  /** A payment whose slice is lost, or that has several jobs, is still paid at most once. */
  lemma RedeliveredOnce(tenant: int, s: Sim.Sys<Bank, PayJob>, slices: seq<Slice>)
    requires LegalSlices(tenant, s, slices) && PaidOnce(s.world)
    ensures var t := AfterSlices(tenant, s, slices);
            PaidOnce(t.world) && Later(s.world, t.world)
  {
    hide *;
    SlicesAreSteps(tenant, s, slices);
    RunPaysOnce(s.world, StepsIn(tenant, s, slices));
  }

  /** Processing again what has been processed answers with its status and changes nothing. */
  lemma ProcessAgain(bank: Bank, tenant: int, id: int)
    requires Process(bank, tenant, id).1.Paid? || Process(bank, tenant, id).1.Refused?
    ensures var once := Process(bank, tenant, id).0;
            && Mine(once, tenant, id)
            && Process(once, tenant, id) == (once, Done(once.payments[id].status))
            && once.payments[id].status == (if Process(bank, tenant, id).1.Paid? then Settled else Rejected)
  {
    hide Entries, CheckDebtor;
  }

  /** The debtor's account is owned, active and funded. */
  predicate CanPay(b: Books, p: Payment) {
    Owned(b, p.debtor) && b.accounts[p.debtor].status == Active && b.accounts[p.debtor].balance >= p.amount
  }

  /** The instruction is in the currency of its debtor and, if owned, of its creditor. */
  predicate OneCurrency(b: Books, p: Payment)
    requires Owned(b, p.debtor)
  {
    && b.accounts[p.debtor].currency == p.currency
    && (Owned(b, p.creditor) ==> b.accounts[p.creditor].currency == p.currency)
  }

  /**
    A payment that is not the tenant's is not found; one that has ended is answered its status.
    Neither changes anything.
  */
  lemma EndedOrUnknown(bank: Bank, tenant: int, id: int)
    ensures var r, mine := Process(bank, tenant, id), 0 <= id < |bank.payments| && bank.payments[id].tenant == tenant;
            && (r.1 == NotFound <==> !mine)
            && (r.1.Done? <==> mine && bank.payments[id].status != Accepted)
            && (r.1.Done? ==> mine && r.1.status == bank.payments[id].status)
            && (r.1 == NotFound || r.1.Done? ==> r.0 == bank)
  {
    hide Entries, CheckDebtor;
  }

  /**
    An accepted payment is refused exactly if its debtor is unknown, closed, dormant or short of
    funds, in this order, and keeps that reason; it is settled exactly if the debtor can pay and the
    currencies agree. Otherwise processing raises for the currencies, and nothing has changed, the
    debit included; it stays accepted. The creditor's status is never looked at.
  */
  lemma OutcomeIff(bank: Bank, tenant: int, id: int)
    requires Mine(bank, tenant, id) && bank.payments[id].status == Accepted
    ensures var p, b, r := bank.payments[id], bank.books, Process(bank, tenant, id);
            && (r.1 == Refused(AccountNotFound) <==> !Owned(b, p.debtor))
            && (r.1 == Refused(AccountClosed) <==> Owned(b, p.debtor) && b.accounts[p.debtor].status == Closed)
            && (r.1 == Refused(AccountDormant) <==> Owned(b, p.debtor) && b.accounts[p.debtor].status == Dormant)
            && (r.1 == Refused(InsufficientFunds) <==>
                  && Owned(b, p.debtor) && b.accounts[p.debtor].status == Active
                  && b.accounts[p.debtor].balance < p.amount)
            && (r.1.Refused? <==> !CanPay(b, p))
            && (r.1 == Paid <==> CanPay(b, p) && OneCurrency(b, p))
            && (r.1.Raised? <==> CanPay(b, p) && !OneCurrency(b, p))
            && (r.1.Raised? ==> r.1.error == CurrencyMismatch && r.0 == bank)
            && (r.1.Refused? ==>
                  && r.0.books == b
                  && r.0.payments == bank.payments[id := p.(status := Rejected, reason := Some(r.1.reason))])
            && (r.1 == Paid ==> r.0.payments == bank.payments[id := p.(status := Settled)])
  {
  }

  /**
    What a settled payment does to the balances: the debtor loses the amount, the creditor gains it if
    the simulator owns it, and no other account changes.
  */
  lemma SettledBalances(bank: Bank, step: Step, i: nat)
    requires Settles(bank, step) && Mine(bank, step.tenant, step.id) && i < |bank.books.accounts|
    ensures var p, t := bank.payments[step.id], Apply(bank, step);
            && |t.books.accounts| == |bank.books.accounts|
            && t.books.accounts[i].balance == bank.books.accounts[i].balance
                 - (if i == p.debtor then p.amount else 0) + (if i == p.creditor then p.amount else 0)
            && (i != p.debtor && i != p.creditor ==> t.books.accounts[i] == bank.books.accounts[i])
  {
    var p, b := bank.payments[step.id], bank.books;
    SettleShape(bank, step);
    if Owned(b, p.creditor) {
      MoveOutcome(b, p.debtor, p.creditor, p.amount, p.currency, Some(step.id));
    } else {
      WriteOutcome(b, p.debtor, p.amount, p.currency, Debit, Some(step.id));
    }
    hide Process, Move, Write;
  }

  /**
    Opening an account: a virtual account without a parent and a parent that is not there are
    refused; any other is appended as asked for, active and empty, and nothing else changes.
  */
  lemma OpenOutcome(bank: Bank, a: Account)
    ensures var t, n := Apply(bank, Open(a)), |bank.books.accounts|;
            && t.payments == bank.payments && t.books.entries == bank.books.entries
            && if (a.kind == MerchantVan && a.parent == None) || (a.parent.Some? && a.parent.value >= n) then t == bank
               else
                 && |t.books.accounts| == n + 1 && t.books.accounts[..n] == bank.books.accounts
                 && t.books.accounts[n] == Account(a.kind, a.parent, a.currency, Active, 0, 0)
  {
  }

  // ---- every due payment ends -------------------------------------------

  /** The job is the payment's; no other job is. */
  ghost predicate SoleJob(jobs: seq<Sim.Job<PayJob>>, i: nat) {
    forall k | 0 <= k < |jobs| && k != i && i < |jobs| :: jobs[k].payload != jobs[i].payload
  }

  /** What the job's status tells of its payment: fired, that it has ended; failed, that its only job left it accepted. */
  ghost predicate Resolved(s: Sim.Sys<Bank, PayJob>, i: nat) {
    && i < |s.jobs| && Mine(s.world, s.jobs[i].payload.tenant, s.jobs[i].payload.id)
    && var p := s.world.payments[s.jobs[i].payload.id];
       && (s.jobs[i].status == Sim.Fired ==> p.status != Accepted)
       && (s.jobs[i].status == Sim.Failed && SoleJob(s.jobs, i) ==> p.status == Accepted)
  }

  lemma ProcessEnds(bank: Bank, tenant: int, id: int)
    requires Mine(bank, tenant, id)
    ensures var r := Process(bank, tenant, id);
            && Mine(r.0, tenant, id)
            && (r.1.Raised? <==> r.0.payments[id].status == Accepted)
  {
    hide Entries, CheckDebtor;
  }

  lemma ProcessOther(bank: Bank, tenant: int, id: int, tenant': int, id': int)
    requires Mine(bank, tenant, id)
    ensures var t := Process(bank, tenant', id').0;
            && Mine(t, tenant, id) && Became(bank.payments[id], t.payments[id])
            && ((tenant', id') != (tenant, id) ==> t.payments[id] == bank.payments[id])
  {
    hide Entries, CheckDebtor;
  }

  lemma RunJobResolves(s: Sim.Sys<Bank, PayJob>, k: nat, i: nat)
    requires k < |s.jobs| && Resolved(s, i) && (k == i ==> s.jobs[i].status == Sim.Waiting)
    ensures var t := Sim.RunJob(Handlers(), s, k);
            Resolved(t, i) && |t.jobs| == |s.jobs| && (k != i ==> t.jobs[i] == s.jobs[i])
            && (SoleJob(s.jobs, i) ==> SoleJob(t.jobs, i))
  {
    hide Sim.RunJob, Handlers, Process;
    var t, j := Sim.RunJob(Handlers(), s, k), s.jobs[k].payload;
    JobIsStep(s, k);
    assert forall n | 0 <= n < |s.jobs| :: t.jobs[n].payload == s.jobs[n].payload;
    assert SoleJob(t.jobs, i) <==> SoleJob(s.jobs, i);
    if k == i {
      ProcessEnds(s.world, j.tenant, j.id);
    } else {
      ProcessOther(s.world, s.jobs[i].payload.tenant, s.jobs[i].payload.id, j.tenant, j.id);
    }
  }

  lemma {:induction false} RunJobsResolve(s: Sim.Sys<Bank, PayJob>, order: seq<nat>, i: nat)
    requires forall p | 0 <= p < |order| :: order[p] < |s.jobs|
    requires forall p, q | 0 <= p < q < |order| :: order[p] != order[q]
    requires Resolved(s, i) && (i in order ==> s.jobs[i].status == Sim.Waiting)
    ensures Resolved(Sim.RunJobs(Handlers(), s, order), i)
    ensures SoleJob(s.jobs, i) ==> SoleJob(Sim.RunJobs(Handlers(), s, order).jobs, i)
    decreases |order|
  {
    hide Sim.RunJob, Handlers;
    if order != [] {
      assert Resolved(s, i) && i < |s.jobs|;
      hide Resolved, SoleJob;
      RunJobResolves(s, order[0], i);
      assert order == [order[0]] + order[1..];
      RunJobsResolve(Sim.RunJob(Handlers(), s, order[0]), order[1..], i);
    }
  }

  lemma SliceResolves(tenant: int, s: Sim.Sys<Bank, PayJob>, turn: Sim.Turn, i: nat)
    requires Sim.Enabled(tenant, s, turn) && Resolved(s, i)
    ensures Resolved(Sim.RunSlice(Handlers(), tenant, s, turn), i)
    ensures SoleJob(s.jobs, i) ==> SoleJob(Sim.RunSlice(Handlers(), tenant, s, turn).jobs, i)
  {
    hide Handlers, Sim.RunJobs, Process, SoleJob;
    var s' := s.(clock := s.clock + turn.length);
    assert Resolved(s', i);
    RunJobsResolve(s', turn.order, i);
  }

  lemma {:induction false} AdvanceResolves(tenant: int, s: Sim.Sys<Bank, PayJob>, turns: seq<Sim.Turn>, i: nat)
    requires Sim.Legal(Handlers(), tenant, s, turns) && Resolved(s, i)
    ensures Resolved(Sim.Exec(Handlers(), tenant, s, turns), i)
    ensures SoleJob(s.jobs, i) ==> SoleJob(Sim.Exec(Handlers(), tenant, s, turns).jobs, i)
    decreases |turns|
  {
    hide *;
    if turns == [] {
      Sim.NoSlice(Handlers(), tenant, s, turns);
    } else {
      Sim.FirstSlice(Handlers(), tenant, s, turns);
      SliceResolves(tenant, s, turns[0], i);
      AdvanceResolves(tenant, Sim.RunSlice(Handlers(), tenant, s, turns[0]), turns[1..], i);
    }
  }

  lemma WaitingResolves(s: Sim.Sys<Bank, PayJob>, i: nat)
    requires i < |s.jobs| && Mine(s.world, s.jobs[i].payload.tenant, s.jobs[i].payload.id)
    requires s.jobs[i].status == Sim.Waiting
    ensures Resolved(s, i)
  {
  }

  /**
    An advance under the tenant that reaches the fire time of a payment's job leaves the payment
    settled or rejected, or the job failed; and then, if it was the payment's only job, the
    payment is accepted still.
  */
  lemma DuePaymentEnds(tenant: int, s: Sim.Sys<Bank, PayJob>, turns: seq<Sim.Turn>, i: nat)
    requires Sim.Legal(Handlers(), tenant, s, turns) && Sim.Forward(turns) && turns != []
    requires i < |s.jobs| && s.jobs[i].status == Sim.Waiting && s.jobs[i].tenant == Some(tenant)
    requires s.jobs[i].fireAt <= s.clock + Sim.Total(turns) && Mine(s.world, tenant, s.jobs[i].payload.id)
    requires s.jobs[i].payload.tenant == tenant
    ensures var t, id := Sim.Exec(Handlers(), tenant, s, turns), s.jobs[i].payload.id;
            && i < |t.jobs| && Mine(t.world, tenant, id)
            && (t.jobs[i].status == Sim.Fired || t.jobs[i].status == Sim.Failed)
            && (t.jobs[i].status == Sim.Fired ==> t.world.payments[id].status != Accepted)
            && (SoleJob(s.jobs, i) && t.jobs[i].status == Sim.Failed ==> t.world.payments[id].status == Accepted)
  {
    hide Sim.Legal, Sim.Exec, Sim.Forward, Sim.Total, Process, Handlers, SoleJob;
    WaitingResolves(s, i);
    AdvanceResolves(tenant, s, turns, i);
    Sim.AdvanceTakesDue(Handlers(), tenant, s, turns, i);
  }

  /** The system after `initiate_payment` has committed the instruction and asked for its job. */
  ghost function Initiated(
    s: Sim.Sys<Bank, PayJob>, tenant: int, debtor: int, creditor: int, amount: int, currency: int, fireAt: int)
    : Sim.Sys<Bank, PayJob>
  {
    s.(world := Initiate(s.world, tenant, debtor, creditor, amount, currency),
       jobs := s.jobs + Sim.NewJobs([Sim.Request(Some(tenant), fireAt, PayJob(tenant, |s.world.payments|))]))
  }

  lemma SliceLater(tenant: int, s: Sim.Sys<Bank, PayJob>, turn: Sim.Turn)
    requires Sim.Enabled(tenant, s, turn)
    ensures Later(s.world, Sim.RunSlice(Handlers(), tenant, s, turn).world)
    ensures PaidOnce(s.world) ==> PaidOnce(Sim.RunSlice(Handlers(), tenant, s, turn).world)
  {
    var x := Slice(turn, true);
    assert AfterSlice(tenant, s, x) == Sim.RunSlice(Handlers(), tenant, s, turn);
    hide *;
    SliceIsSteps(tenant, s, x);
    RunLater(s.world, StepsOf(s.jobs, x.turn.order));
    if PaidOnce(s.world) {
      RunPaysOnce(s.world, StepsOf(s.jobs, x.turn.order));
    }
  }

  lemma {:induction false} AdvanceLater(tenant: int, s: Sim.Sys<Bank, PayJob>, turns: seq<Sim.Turn>)
    requires Sim.Legal(Handlers(), tenant, s, turns)
    ensures Later(s.world, Sim.Exec(Handlers(), tenant, s, turns).world)
    ensures PaidOnce(s.world) ==> PaidOnce(Sim.Exec(Handlers(), tenant, s, turns).world)
    decreases |turns|
  {
    hide *;
    if turns == [] {
      Sim.NoSlice(Handlers(), tenant, s, turns);
      LaterSame(s.world);
    } else {
      Sim.FirstSlice(Handlers(), tenant, s, turns);
      var m := Sim.RunSlice(Handlers(), tenant, s, turns[0]);
      SliceLater(tenant, s, turns[0]);
      AdvanceLater(tenant, m, turns[1..]);
      LaterTrans(s.world, m.world, Sim.Exec(Handlers(), tenant, s, turns).world);
    }
  }

  /** The entries of payment id: of these accounts, of the amount, and in the currency. */
  ghost predicate EntriesAre(entries: seq<Entry>, id: nat, debtor: int, creditor: int, amount: int, currency: int) {
    forall k | 0 <= k < |entries| && entries[k].payment == Some(id) ::
      && entries[k].account == (if entries[k].side == Debit then debtor else creditor)
      && (entries[k].amount == amount || entries[k].amount == -amount) && entries[k].currency == currency
  }

  /** The instruction as it was asked for, however far it has come, and what was booked for it. */
  lemma InitiatedBooks(bank: Bank, t: Bank, tenant: int, debtor: int, creditor: int, amount: int, currency: int)
    requires Owned(bank.books, debtor)
    requires Later(Initiate(bank, tenant, debtor, creditor, amount, currency), t)
    ensures var id := |bank.payments|;
            && id < |t.payments|
            && (exists status, reason ::
                  t.payments[id] == Payment(tenant, debtor, creditor, amount, currency, status, reason))
            && (PaidOnce(t) ==>
                  && CountFor(t.books.entries, id, Debit) == (if t.payments[id].status == Settled then 1 else 0)
                  && CountFor(t.books.entries, id, Credit) <= CountFor(t.books.entries, id, Debit)
                  && EntriesAre(t.books.entries, id, debtor, creditor, amount, currency))
  {
    hide CountFor;
    var id, p := |bank.payments|, Payment(tenant, debtor, creditor, amount, currency, Accepted, None);
    assert Initiate(bank, tenant, debtor, creditor, amount, currency).payments[id] == p;
    assert Became(p, t.payments[id]);
    assert PaidOnce(t) ==> Once(t, id);
    var q := t.payments[id];
    assert q == Payment(tenant, debtor, creditor, amount, currency, q.status, q.reason);
    forall k | PaidOnce(t) && 0 <= k < |t.books.entries| && t.books.entries[k].payment == Some(id)
      ensures t.books.entries[k].account == (if t.books.entries[k].side == Debit then debtor else creditor)
      ensures t.books.entries[k].amount == amount || t.books.entries[k].amount == -amount
      ensures t.books.entries[k].currency == currency
    {
      assert Fits(t.payments, t.books.entries[k]);
    }
  }

  lemma InitiateKeeps(bank: Bank, tenant: int, debtor: int, creditor: int, amount: int, currency: int)
    ensures PaidOnce(bank) ==> PaidOnce(Initiate(bank, tenant, debtor, creditor, amount, currency))
  {
    hide PaidOnce, Later;
    if PaidOnce(bank) {
      StepPaysOnce(bank, Ask(tenant, debtor, creditor, amount, currency));
    }
  }

  /**
    A payment that has been initiated ends: once an advance under its tenant reaches its fire time
    it is settled or rejected, unless processing it raised, and then its job has failed. If it is
    settled, exactly one debit was booked for it, of the debtor, and at most one credit, of the
    creditor, both of the amount and currency that were asked for; otherwise nothing was.
  */
  lemma InitiatedPaymentEnds(
    s: Sim.Sys<Bank, PayJob>, tenant: int, debtor: int, creditor: int, amount: int, currency: int, fireAt: int,
    turns: seq<Sim.Turn>)
    requires Owned(s.world.books, debtor)
    requires forall k | 0 <= k < |s.jobs| :: s.jobs[k].payload.id != |s.world.payments|
    requires var s' := Initiated(s, tenant, debtor, creditor, amount, currency, fireAt);
             Sim.Legal(Handlers(), tenant, s', turns) && fireAt <= s'.clock + Sim.Total(turns)
    requires Sim.Forward(turns) && turns != []
    ensures var s' := Initiated(s, tenant, debtor, creditor, amount, currency, fireAt);
            var t, id, i := Sim.Exec(Handlers(), tenant, s', turns), |s.world.payments|, |s.jobs|;
            && i < |t.jobs| && Mine(t.world, tenant, id)
            && (t.world.payments[id].status != Accepted <==> t.jobs[i].status == Sim.Fired)
            && (t.world.payments[id].status == Accepted <==> t.jobs[i].status == Sim.Failed)
            && (exists status, reason ::
                  t.world.payments[id] == Payment(tenant, debtor, creditor, amount, currency, status, reason))
            && (PaidOnce(s.world) ==>
                  var entries := t.world.books.entries;
                  && CountFor(entries, id, Debit) == (if t.world.payments[id].status == Settled then 1 else 0)
                  && CountFor(entries, id, Credit) <= CountFor(entries, id, Debit)
                  && EntriesAre(entries, id, debtor, creditor, amount, currency))
  {
    var s' := Initiated(s, tenant, debtor, creditor, amount, currency, fireAt);
    assert SoleJob(s'.jobs, |s.jobs|);
    InitiateKeeps(s.world, tenant, debtor, creditor, amount, currency);
    hide Sim.Legal, Sim.Exec, Sim.Forward, Sim.Total, Handlers, SoleJob, PaidOnce, Later, CountFor, EntriesAre;
    DuePaymentEnds(tenant, s', turns, |s.jobs|);
    AdvanceLater(tenant, s', turns);
    InitiatedBooks(s.world, Sim.Exec(Handlers(), tenant, s', turns).world, tenant, debtor, creditor, amount, currency);
  }

  // ---- when a payment is processed --------------------------------------

  datatype Rail = Instant | Rtgs | Ach

  const HOUR := 3600 * Sim.SECOND

  /**
    `_compute_fire_at`: instant rails take thirty seconds; the others the first business day after
    today, at the region's cut-off hour or at nine. Always later than now.
  */
  method ComputeFireAt(rail: Rail, now: int, cutoffHour: nat, weekend: set<int>) returns (fireAt: int)
    requires Working(weekend) && cutoffHour < 24
    ensures now < fireAt
    ensures rail == Instant ==> fireAt == now + 30_000_000
    ensures rail != Instant ==> IsSettlementDate(now / Sim.DAY, 1, weekend, fireAt / Sim.DAY)
    ensures rail == Rtgs ==> fireAt % Sim.DAY == cutoffHour * HOUR
    ensures rail == Ach ==> fireAt % Sim.DAY == 9 * HOUR
  {
    if rail == Instant {
      return now + 30 * Sim.SECOND;
    }
    hide IsSettlementDate;
    var hour := if rail == Rtgs then cutoffHour else 9;
    var date := NextBusinessDay(now / Sim.DAY, weekend);
    LaterDate(now / Sim.DAY, weekend, date);
    AtHour(date, hour);
    fireAt := date * Sim.DAY + hour * HOUR;
  }

  lemma LaterDate(d: int, weekend: set<int>, r: int)
    requires IsSettlementDate(d, 1, weekend, r)
    ensures d < r
  {
  }

  lemma AtHour(date: int, hour: nat)
    requires hour < 24
    ensures (date * Sim.DAY + hour * HOUR) / Sim.DAY == date
    ensures (date * Sim.DAY + hour * HOUR) % Sim.DAY == hour * HOUR
  {
  }

  // ---- the processor ----------------------------------------------------

  class PaymentProcessor {
    const ledger: AccountStore
    var payments: seq<Payment>
    var requests: seq<Sim.Request<PayJob>>

    function View(): Bank
      reads this, ledger
    {
      Bank(ledger.View(), payments)
    }

    constructor (ledger: AccountStore)
      ensures this.ledger == ledger && payments == [] && requests == []
    {
      this.ledger, this.payments, this.requests := ledger, [], [];
    }

    /** `initiate_payment` after its idempotency check: the instruction, and the one job that will process it. */
    method InitiatePayment(
      tenant: int, debtor: int, creditor: int, amount: int, currency: int,
      rail: Rail, now: int, cutoffHour: nat, weekend: set<int>)
      returns (r: Result<nat, Error>)
      requires Working(weekend) && cutoffHour < 24
      modifies this
      ensures View() == Initiate(old(View()), tenant, debtor, creditor, amount, currency)
      ensures r == if Owned(ledger.View(), debtor) then Ok(|old(payments)|) else Err(AccountNotFound)
      ensures r.Err? ==> payments == old(payments) && requests == old(requests)
      ensures r.Ok? ==>
                payments == old(payments) + [Payment(tenant, debtor, creditor, amount, currency, Accepted, None)]
      ensures r.Ok? ==>
                && |requests| == |old(requests)| + 1 && requests[..|old(requests)|] == old(requests)
                && var job := requests[|old(requests)|];
                   job.tenant == Some(tenant) && job.payload == PayJob(tenant, r.value)
                   && now < job.fireAt
                   && (rail == Instant ==> job.fireAt == now + 30_000_000)
                   && (rail != Instant ==> IsSettlementDate(now / Sim.DAY, 1, weekend, job.fireAt / Sim.DAY))
                   && (rail == Rtgs ==> job.fireAt % Sim.DAY == cutoffHour * HOUR)
                   && (rail == Ach ==> job.fireAt % Sim.DAY == 9 * HOUR)
    {
      hide IsSettlementDate, Working;
      if !(0 <= debtor < |ledger.accounts|) {
        return Err(AccountNotFound);
      }
      r := Ok(|payments|);
      payments := payments + [Payment(tenant, debtor, creditor, amount, currency, Accepted, None)];
      var fireAt := ComputeFireAt(rail, now, cutoffHour, weekend);
      requests := requests + [Sim.Request(Some(tenant), fireAt, PayJob(tenant, r.value))];
    }

    /** `process_payment`: on an exception the session's work is undone. */
    method ProcessPayment(tenant: int, id: int) returns (reply: Reply)
      modifies this, ledger
      ensures (View(), reply) == Process(old(View()), tenant, id) && requests == old(requests)
    {
      if !(0 <= id < |payments| && payments[id].tenant == tenant) {
        return NotFound;
      }
      var instr := payments[id];
      if instr.status == Settled || instr.status == Rejected {
        return Done(instr.status);
      }
      var refusal := CheckDebtor(ledger.View(), instr);
      if refusal.Some? {
        payments := payments[id := instr.(status := Rejected, reason := refusal)];
        return Refused(refusal.value);
      }
      var savedAccounts, savedEntries := ledger.accounts, ledger.entries;
      var r := ledger.WriteEntry(instr.debtor, instr.amount, instr.currency, Debit, Some(id));
      if r.Ok? {
        var creditor := ledger.GetAccount(instr.creditor);
        if creditor.Ok? {
          r := ledger.WriteEntry(creditor.value, instr.amount, instr.currency, Credit, Some(id));
        }
      }
      if r.Err? {
        ledger.accounts, ledger.entries := savedAccounts, savedEntries;
        return Raised(r.error);
      }
      payments := payments[id := instr.(status := Settled)];
      return Paid;
    }
  }
}
