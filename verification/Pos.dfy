/**
  Point-of-sale tables: `pos/generator.py` writes transactions, `pos/settlement.py` batches them.

  Rows are never deleted, so a batch's id is its index. The columns `settlement_status` and
  `settlement_batch_id` are always written together; they are the one option `batch` here.
*/
module Pos {
  import opened Prelude
  import opened Calendar
  import opened Fees
  import opened SimScheduler

  /** A merchant, with the configuration of its region. */
  datatype Merchant = Merchant(tenant: int, active: bool, terms: Terms)

  datatype Txn = Txn(
    tenant: int, merchant: int, amount: nat, charge: Charge, saleDate: int, expected: int, batch: Option<nat>)

  datatype Batch = Batch(
    tenant: int, merchant: int, date: int, count: int, gross: int, mdr: int, vat: int, net: int)

  datatype Db = Db(merchants: map<int, Merchant>, txns: seq<Txn>, batches: seq<Batch>)

  /** The amounts drawn for a merchant's day, from the generator seeded with tenant, merchant and date. */
  type Sampler = (int, int, int) -> seq<nat>

  predicate Known(db: Db, tenant: int, merchant: int) {
    merchant in db.merchants && db.merchants[merchant].tenant == tenant
  }

  /** Regions have sensible rates and, if they settle later than the same day, a working weekday. */
  ghost predicate ValidTerms(terms: Terms) {
    terms.Valid() && (terms.settlementDays > 0 ==> Working(terms.weekend))
  }

  ghost predicate ValidMerchants(db: Db) {
    forall m | m in db.merchants :: ValidTerms(db.merchants[m].terms)
  }

  // ---- generation -------------------------------------------------------

  function WaitDays(terms: Terms): nat {
    if terms.settlementDays > 0 then terms.settlementDays else 0
  }

  function ExpectedDate(terms: Terms, date: int): int {
    SettlementDate(date, WaitDays(terms), terms.weekend)
  }

  function NewTxn(tenant: int, merchant: int, terms: Terms, date: int, amount: nat): Txn
    requires terms.Valid()
  {
    Txn(tenant, merchant, amount, CalcFees(amount, terms), date, ExpectedDate(terms, date), None)
  }

  function NewTxns(tenant: int, merchant: int, terms: Terms, date: int, amounts: seq<nat>): seq<Txn>
    requires terms.Valid()
  {
    seq(|amounts|, k requires 0 <= k < |amounts| => NewTxn(tenant, merchant, terms, date, amounts[k]))
  }

  /** One committed slice of a merchant's day. */
  function Sell(db: Db, tenant: int, merchant: int, date: int, amounts: seq<nat>): Db {
    if Known(db, tenant, merchant) && db.merchants[merchant].terms.Valid() then
      db.(txns := db.txns + NewTxns(tenant, merchant, db.merchants[merchant].terms, date, amounts))
    else db
  }

  /** What a call of `generate_merchant_day` that runs to its end sells. */
  function DayAmounts(sample: Sampler, db: Db, tenant: int, merchant: int, date: int): seq<nat> {
    if Known(db, tenant, merchant) && db.merchants[merchant].active then sample(tenant, merchant, date) else []
  }

  // ---- sums over the transaction table ----------------------------------

  datatype Field = Count | Gross | Mdr | Vat | Wht | Net

  /** The transactions a sum is taken over. */
  datatype Group = Everything | Unsettled | Member(batch: nat) | Below(bound: nat)
    | Chosen(tenant: int, merchant: int, date: int)

  predicate In(x: Txn, g: Group) {
    match g
    case Everything => true
    case Unsettled => x.batch == None
    case Member(b) => x.batch == Some(b)
    case Below(n) => x.batch.Some? && x.batch.value < n
    case Chosen(tenant, merchant, date) =>
      x.tenant == tenant && x.merchant == merchant && x.expected == date && x.batch == None
  }

  function Measure(x: Txn, f: Field): int {
    match f
    case Count => 1
    case Gross => x.amount
    case Mdr => x.charge.mdr
    case Vat => x.charge.vat
    case Wht => x.charge.wht
    case Net => x.charge.net
  }

  function Part(x: Txn, f: Field, g: Group): int {
    if In(x, g) then Measure(x, f) else 0
  }

  function SumOf(txns: seq<Txn>, f: Field, g: Group): int {
    if txns == [] then 0
    else SumOf(txns[..|txns| - 1], f, g) + Part(txns[|txns| - 1], f, g)
  }

  /** A batch states five of the six totals; the withholding tax is what the others leave. */
  function Stated(b: Batch, f: Field): int {
    match f
    case Count => b.count
    case Gross => b.gross
    case Mdr => b.mdr
    case Vat => b.vat
    case Wht => b.gross - b.mdr - b.vat - b.net
    case Net => b.net
  }

  function StatedInAll(batches: seq<Batch>, f: Field): int {
    if batches == [] then 0 else StatedInAll(batches[..|batches| - 1], f) + Stated(batches[|batches| - 1], f)
  }

  // ---- settlement -------------------------------------------------------

  predicate SomePending(txns: seq<Txn>, tenant: int, merchant: int, date: int) {
    exists k | 0 <= k < |txns| :: In(txns[k], Chosen(tenant, merchant, date))
  }

  function Mark(x: Txn, tenant: int, merchant: int, date: int, id: nat): Txn {
    if In(x, Chosen(tenant, merchant, date)) then x.(batch := Some(id)) else x
  }

  function Marked(txns: seq<Txn>, tenant: int, merchant: int, date: int, id: nat): seq<Txn> {
    seq(|txns|, k requires 0 <= k < |txns| => Mark(txns[k], tenant, merchant, date, id))
  }

  function Totals(txns: seq<Txn>, tenant: int, merchant: int, date: int): Batch {
    var g := Chosen(tenant, merchant, date);
    Batch(tenant, merchant, date,
          SumOf(txns, Count, g), SumOf(txns, Gross, g), SumOf(txns, Mdr, g), SumOf(txns, Vat, g), SumOf(txns, Net, g))
  }

  /** `settle_merchant_day` returns None, having done nothing. */
  predicate Idle(db: Db, tenant: int, merchant: int, date: int) {
    !SomePending(db.txns, tenant, merchant, date) || !Known(db, tenant, merchant)
  }

  function Settle(db: Db, tenant: int, merchant: int, date: int): Db {
    if Idle(db, tenant, merchant, date) then db
    else db.(txns := Marked(db.txns, tenant, merchant, date, |db.batches|),
             batches := db.batches + [Totals(db.txns, tenant, merchant, date)])
  }

  // ---- the jobs the two engines ask for ---------------------------------

  datatype Payload =
    | GenerateDay(tenant: int, merchant: int, date: int)
    | SettleDay(tenant: int, merchant: int, date: int)

  /** `_schedule_next_day`, and `schedule_initial_generation` for the day before the first. */
  function NextDay(tenant: int, merchant: int, date: int): Request<Payload> {
    Request(Some(tenant), (date + 1) * DAY, GenerateDay(tenant, merchant, date + 1))
  }

  /** `schedule_settlement`. */
  function SettleOn(tenant: int, merchant: int, date: int): Request<Payload> {
    Request(Some(tenant), date * DAY, SettleDay(tenant, merchant, date))
  }

  function DayRequests(sample: Sampler, db: Db, tenant: int, merchant: int, date: int): seq<Request<Payload>> {
    if !Known(db, tenant, merchant) then []
    else if DayAmounts(sample, db, tenant, merchant, date) == [] then [NextDay(tenant, merchant, date)]
    else [NextDay(tenant, merchant, date),
          SettleOn(tenant, merchant, ExpectedDate(db.merchants[merchant].terms, date))]
  }

  // ---- what a day and its settlement do ---------------------------------

  /** `after` has, behind the rows of `before`, one pending row of the day for each amount, in order. */
  ghost predicate DaySold(
    before: seq<Txn>, after: seq<Txn>, tenant: int, merchant: int, terms: Terms, date: int, amounts: seq<nat>)
  {
    && |after| == |before| + |amounts| && after[..|before|] == before
    && forall k | 0 <= k < |amounts| ::
         var x := after[|before| + k];
         && x.tenant == tenant && x.merchant == merchant && x.saleDate == date
         && x.amount == amounts[k] && x.batch == None
         && var days := if terms.settlementDays > 0 then terms.settlementDays else 0;
            IsSettlementDate(date, days, terms.weekend, x.expected)
  }

  /** The one generation job of the merchant that is asked for is for the day after `date`. */
  ghost predicate AsksNextDay(r: Request<Payload>, tenant: int, merchant: int, date: int) {
    r.tenant == Some(tenant) && r.fireAt == (date + 1) * DAY && r.payload == GenerateDay(tenant, merchant, date + 1)
  }

  ghost predicate AsksSettlement(r: Request<Payload>, tenant: int, merchant: int, date: int) {
    r.tenant == Some(tenant) && r.fireAt == date * DAY && r.payload == SettleDay(tenant, merchant, date)
  }

  /**
    `generate_merchant_day`: an unknown merchant sells nothing and asks for nothing, an inactive one
    sells nothing and asks for its next day, and an active one sells exactly the day's sampled
    amounts and asks for its next day and, if it sold anything, for the settlement of what it sold.
  */
  lemma DayIs(sample: Sampler, db: Db, tenant: int, merchant: int, date: int)
    requires ValidMerchants(db)
    ensures var e := Sell(db, tenant, merchant, date, DayAmounts(sample, db, tenant, merchant, date));
            var r := DayRequests(sample, db, tenant, merchant, date);
            && e == db.(txns := e.txns)
            && if merchant !in db.merchants || db.merchants[merchant].tenant != tenant then
                 e.txns == db.txns && r == []
               else if !db.merchants[merchant].active then
                 e.txns == db.txns && |r| == 1 && AsksNextDay(r[0], tenant, merchant, date)
               else
                 var amounts := sample(tenant, merchant, date);
                 && DaySold(db.txns, e.txns, tenant, merchant, db.merchants[merchant].terms, date, amounts)
                 && |r| == (if amounts == [] then 1 else 2) && AsksNextDay(r[0], tenant, merchant, date)
                 && (amounts != [] ==> AsksSettlement(r[1], tenant, merchant, e.txns[|db.txns|].expected))
  {
    hide IsSettlementDate, CalcFees, SettlementDate, ValidTerms;
    if Known(db, tenant, merchant) {
      var terms := db.merchants[merchant].terms;
      TermsOf(db, merchant);
      if terms.Valid() {
        SettlementDateIs(date, WaitDays(terms), terms.weekend);
      }
    }
  }

  lemma TermsOf(db: Db, merchant: int)
    requires ValidMerchants(db) && merchant in db.merchants
    ensures var terms := db.merchants[merchant].terms;
            terms.Valid() && (WaitDays(terms) > 0 ==> Working(terms.weekend))
  {
    assert ValidTerms(db.merchants[merchant].terms);
  }

  /**
    `settle_merchant_day`: if the merchant is the tenant's and has rows of the date pending, a new
    batch takes exactly those; otherwise nothing happens.
  */
  lemma SettleIs(db: Db, tenant: int, merchant: int, date: int)
    ensures var e := Settle(db, tenant, merchant, date);
            var some := merchant in db.merchants && db.merchants[merchant].tenant == tenant
                        && exists k | 0 <= k < |db.txns| ::
                             db.txns[k].tenant == tenant && db.txns[k].merchant == merchant
                             && db.txns[k].expected == date && db.txns[k].batch == None;
            && (some <==> !Idle(db, tenant, merchant, date))
            && (!some ==> e == db)
            && (some ==>
                  && e.merchants == db.merchants && |e.txns| == |db.txns|
                  && |e.batches| == |db.batches| + 1 && e.batches[..|db.batches|] == db.batches
                  && var b := e.batches[|db.batches|];
                     && b.tenant == tenant && b.merchant == merchant && b.date == date
                     && forall k | 0 <= k < |db.txns| ::
                          var x := db.txns[k];
                          e.txns[k] ==
                            if x.tenant == tenant && x.merchant == merchant && x.expected == date && x.batch == None
                            then x.(batch := Some(|db.batches|)) else x)
  {
    hide SumOf;
    assert forall k | 0 <= k < |db.txns| :: In(db.txns[k], Chosen(tenant, merchant, date)) <==>
      db.txns[k].tenant == tenant && db.txns[k].merchant == merchant
      && db.txns[k].expected == date && db.txns[k].batch == None;
  }

  // ---- runs -------------------------------------------------------------

  /** Everything that is ever committed to these tables. */
  datatype Step =
    | Enrol(merchant: int, details: Merchant)
    | Sale(tenant: int, merchant: int, date: int, amounts: seq<nat>)
    | Settlement(tenant: int, merchant: int, date: int)

  ghost predicate Admissible(db: Db, step: Step) {
    step.Enrol? ==> step.merchant !in db.merchants && ValidTerms(step.details.terms)
  }

  ghost function Apply(db: Db, step: Step): Db {
    match step
    case Enrol(merchant, details) => db.(merchants := db.merchants[merchant := details])
    case Sale(tenant, merchant, date, amounts) => Sell(db, tenant, merchant, date, amounts)
    case Settlement(tenant, merchant, date) => Settle(db, tenant, merchant, date)
  }

  ghost predicate Run(db: Db, steps: seq<Step>)
    decreases |steps|
  {
    steps == [] || (Admissible(db, steps[0]) && Run(Apply(db, steps[0]), steps[1..]))
  }

  ghost function ExecSteps(db: Db, steps: seq<Step>): Db
    decreases |steps|
  {
    if steps == [] then db else ExecSteps(Apply(db, steps[0]), steps[1..])
  }

  // ---- what every run keeps ---------------------------------------------

  /** The transaction was charged and dated under its merchant's terms. */
  ghost predicate Priced(db: Db, x: Txn) {
    && Known(db, x.tenant, x.merchant)
    && var terms := db.merchants[x.merchant].terms;
       && ValidTerms(terms)
       && x.charge == CalcFees(x.amount, terms)
       && x.expected == ExpectedDate(terms, x.saleDate)
  }

  /** A settled transaction names a batch of its own merchant and expected date. */
  ghost predicate Filed(db: Db, x: Txn) {
    x.batch.Some? ==>
      && x.batch.value < |db.batches|
      && var b := db.batches[x.batch.value];
         b.tenant == x.tenant && b.merchant == x.merchant && b.date == x.expected
  }

  /** Batch b states the sums over the transactions that name it, of which there are some. */
  ghost predicate Balanced(db: Db, b: nat)
    requires b < |db.batches|
  {
    && db.batches[b].count > 0
    && forall f :: Stated(db.batches[b], f) == SumOf(db.txns, f, Member(b))
  }

  ghost predicate Consistent(db: Db) {
    && ValidMerchants(db)
    && (forall k | 0 <= k < |db.txns| :: Priced(db, db.txns[k]) && Filed(db, db.txns[k]))
    && (forall b | 0 <= b < |db.batches| :: Balanced(db, b))
  }

  /** x, as a later run may leave it: the same, but for being settled once. */
  ghost predicate Aged(db: Db, x: Txn, y: Txn) {
    || y == x
    || (x.batch == None && y.batch.Some? && y.batch.value >= |db.batches| && y == x.(batch := y.batch))
  }

  ghost predicate Later(db: Db, e: Db) {
    && (forall m | m in db.merchants :: m in e.merchants && e.merchants[m] == db.merchants[m])
    && |db.txns| <= |e.txns| && (forall k | 0 <= k < |db.txns| :: Aged(db, db.txns[k], e.txns[k]))
    && db.batches <= e.batches
  }

  // ---- lemmas about sums ------------------------------------------------

  lemma {:induction false} SumConcat(x: seq<Txn>, y: seq<Txn>, f: Field, g: Group)
    ensures SumOf(x + y, f, g) == SumOf(x, f, g) + SumOf(y, f, g)
    decreases |y|
  {
    hide Part;
    if y == [] {
      assert x + y == x;
    } else {
      var z := x + y;
      assert z[..|z| - 1] == x + y[..|y| - 1];
      SumConcat(x, y[..|y| - 1], f, g);
    }
  }

  lemma {:induction false} SumSame(x: seq<Txn>, y: seq<Txn>, f: Field, g: Group, h: Group)
    requires |x| == |y|
    requires forall k | 0 <= k < |x| :: Part(x[k], f, g) == Part(y[k], f, h)
    ensures SumOf(x, f, g) == SumOf(y, f, h)
    decreases |x|
  {
    hide Part;
    if x != [] {
      var n := |x| - 1;
      assert forall k | 0 <= k < n :: Part(x[..n][k], f, g) == Part(y[..n][k], f, h);
      SumSame(x[..n], y[..n], f, g, h);
    }
  }

  lemma {:induction false} SumNone(x: seq<Txn>, f: Field, g: Group)
    requires forall k | 0 <= k < |x| :: !In(x[k], g)
    ensures SumOf(x, f, g) == 0
    decreases |x|
  {
    if x != [] {
      SumNone(x[..|x| - 1], f, g);
    }
  }

  lemma {:induction false} SumSplits(x: seq<Txn>, f: Field, g: Group, h: Group, i: Group)
    requires forall k | 0 <= k < |x| :: Part(x[k], f, g) == Part(x[k], f, h) + Part(x[k], f, i)
    ensures SumOf(x, f, g) == SumOf(x, f, h) + SumOf(x, f, i)
    decreases |x|
  {
    hide Part;
    if x != [] {
      SumSplits(x[..|x| - 1], f, g, h, i);
    }
  }

  lemma {:induction false} CountPositive(x: seq<Txn>, g: Group)
    ensures SumOf(x, Count, g) >= 0
    ensures SumOf(x, Count, g) > 0 <==> exists k | 0 <= k < |x| :: In(x[k], g)
    decreases |x|
  {
    if x != [] {
      var n := |x| - 1;
      CountPositive(x[..n], g);
      assert forall k | 0 <= k < n :: x[..n][k] == x[k];
    }
  }

  /** The withholding tax is what gross less the other fees and the net leaves. */
  lemma {:induction false} WhtLeft(x: seq<Txn>, g: Group)
    requires forall k | 0 <= k < |x| ::
      x[k].amount == x[k].charge.mdr + x[k].charge.vat + x[k].charge.wht + x[k].charge.net
    ensures SumOf(x, Wht, g) == SumOf(x, Gross, g) - SumOf(x, Mdr, g) - SumOf(x, Vat, g) - SumOf(x, Net, g)
    decreases |x|
  {
    if x != [] {
      WhtLeft(x[..|x| - 1], g);
    }
  }

  // ---- every step keeps the tables consistent ---------------------------

  lemma SellKeeps(db: Db, tenant: int, merchant: int, date: int, amounts: seq<nat>)
    requires Consistent(db)
    ensures Consistent(Sell(db, tenant, merchant, date, amounts))
    ensures Later(db, Sell(db, tenant, merchant, date, amounts))
  {
    hide CalcFees, ExpectedDate, SumOf, ValidTerms;
    var e := Sell(db, tenant, merchant, date, amounts);
    if Known(db, tenant, merchant) {
      assert ValidTerms(db.merchants[merchant].terms);
      ValidIsValid(db.merchants[merchant].terms);
      var added := NewTxns(tenant, merchant, db.merchants[merchant].terms, date, amounts);
      assert e.txns == db.txns + added;
      forall b | 0 <= b < |e.batches| ensures Balanced(e, b) {
        assert Balanced(db, b);
        forall f ensures SumOf(e.txns, f, Member(b)) == SumOf(db.txns, f, Member(b)) {
          SumConcat(db.txns, added, f, Member(b));
          SumNone(added, f, Member(b));
        }
      }
    }
  }

  lemma ValidIsValid(terms: Terms)
    requires ValidTerms(terms)
    ensures terms.Valid()
  {
  }

  lemma PricedAdds(db: Db, x: Txn)
    requires Priced(db, x)
    ensures x.amount == x.charge.mdr + x.charge.vat + x.charge.wht + x.charge.net
  {
    FeeRounding(x.amount, db.merchants[x.merchant].terms);
  }

  /** The new batch states the sums over the transactions it took. */
  lemma NewBatchBalanced(db: Db, tenant: int, merchant: int, date: int)
    requires Consistent(db) && !Idle(db, tenant, merchant, date)
    ensures Balanced(Settle(db, tenant, merchant, date), |db.batches|)
  {
    hide SumOf, Priced;
    var e, id, g := Settle(db, tenant, merchant, date), |db.batches|, Chosen(tenant, merchant, date);
    CountPositive(db.txns, g);
    forall k | 0 <= k < |db.txns|
      ensures db.txns[k].amount
           == db.txns[k].charge.mdr + db.txns[k].charge.vat + db.txns[k].charge.wht + db.txns[k].charge.net
    {
      PricedAdds(db, db.txns[k]);
    }
    WhtLeft(db.txns, g);
    forall f ensures Stated(e.batches[id], f) == SumOf(e.txns, f, Member(id)) {
      SumSame(db.txns, e.txns, f, g, Member(id));
    }
  }

  lemma OldBatchBalanced(db: Db, tenant: int, merchant: int, date: int, b: nat)
    requires Consistent(db) && !Idle(db, tenant, merchant, date) && b < |db.batches|
    ensures Balanced(Settle(db, tenant, merchant, date), b)
  {
    hide SumOf, Priced;
    var e := Settle(db, tenant, merchant, date);
    assert Balanced(db, b) && e.batches[b] == db.batches[b];
    forall f ensures SumOf(e.txns, f, Member(b)) == SumOf(db.txns, f, Member(b)) {
      SumSame(db.txns, e.txns, f, Member(b), Member(b));
    }
  }

  lemma SettleRows(db: Db, tenant: int, merchant: int, date: int, k: nat)
    requires Consistent(db) && k < |db.txns|
    ensures var e := Settle(db, tenant, merchant, date);
            k < |e.txns| && Priced(e, e.txns[k]) && Filed(e, e.txns[k]) && Aged(db, db.txns[k], e.txns[k])
  {
    hide SomePending, SumOf, CalcFees, ExpectedDate, ValidTerms;
    assert Priced(db, db.txns[k]) && Filed(db, db.txns[k]);
  }

  lemma SettleShape(db: Db, tenant: int, merchant: int, date: int)
    ensures var e := Settle(db, tenant, merchant, date);
            && e.merchants == db.merchants && |e.txns| == |db.txns| && db.batches <= e.batches
            && |e.batches| == |db.batches| + (if Idle(db, tenant, merchant, date) then 0 else 1)
            && (Idle(db, tenant, merchant, date) ==> e == db)
  {
  }

  lemma SettleKeeps(db: Db, tenant: int, merchant: int, date: int)
    requires Consistent(db)
    ensures Consistent(Settle(db, tenant, merchant, date))
    ensures Later(db, Settle(db, tenant, merchant, date))
  {
    hide Settle, Idle, Balanced, Filed, Priced, Aged, ValidTerms;
    var e := Settle(db, tenant, merchant, date);
    SettleShape(db, tenant, merchant, date);
    forall k | 0 <= k < |db.txns|
      ensures Priced(e, e.txns[k]) && Filed(e, e.txns[k]) && Aged(db, db.txns[k], e.txns[k])
    {
      SettleRows(db, tenant, merchant, date, k);
    }
    if !Idle(db, tenant, merchant, date) {
      forall b | 0 <= b < |e.batches| ensures Balanced(e, b) {
        if b < |db.batches| {
          OldBatchBalanced(db, tenant, merchant, date, b);
        } else {
          NewBatchBalanced(db, tenant, merchant, date);
        }
      }
    }
  }

  lemma EnrolKeeps(db: Db, merchant: int, details: Merchant)
    requires Consistent(db) && merchant !in db.merchants && ValidTerms(details.terms)
    ensures Consistent(db.(merchants := db.merchants[merchant := details]))
    ensures Later(db, db.(merchants := db.merchants[merchant := details]))
  {
    hide SumOf, CalcFees, ExpectedDate, ValidTerms;
    var e := db.(merchants := db.merchants[merchant := details]);
    forall k | 0 <= k < |db.txns| ensures Priced(e, e.txns[k]) && Filed(e, e.txns[k]) {
      assert Priced(db, db.txns[k]) && Filed(db, db.txns[k]);
    }
    forall b | 0 <= b < |e.batches| ensures Balanced(e, b) {
      assert Balanced(db, b);
    }
  }

  lemma LaterTrans(a: Db, b: Db, c: Db)
    requires Later(a, b) && Later(b, c)
    ensures Later(a, c)
  {
    forall k | 0 <= k < |a.txns| ensures Aged(a, a.txns[k], c.txns[k]) {
      assert Aged(a, a.txns[k], b.txns[k]) && Aged(b, b.txns[k], c.txns[k]);
    }
  }

  lemma StepKeeps(db: Db, step: Step)
    requires Consistent(db) && Admissible(db, step)
    ensures Consistent(Apply(db, step)) && Later(db, Apply(db, step))
  {
    hide Consistent, Later, Settle, Sell;
    match step {
      case Enrol(merchant, details) => EnrolKeeps(db, merchant, details);
      case Sale(tenant, merchant, date, amounts) => SellKeeps(db, tenant, merchant, date, amounts);
      case Settlement(tenant, merchant, date) => SettleKeeps(db, tenant, merchant, date);
    }
  }

  /**
    Over every run: each settled transaction names one batch of its merchant and date, each batch
    states the sums over exactly the transactions that name it, and a transaction once settled,
    a batch once made and a merchant once enrolled never change.
  */
  lemma {:induction false} RunKeeps(db: Db, steps: seq<Step>)
    requires Consistent(db) && Run(db, steps)
    ensures Consistent(ExecSteps(db, steps)) && Later(db, ExecSteps(db, steps))
    decreases |steps|
  {
    hide Consistent, Later, Apply, Admissible;
    if steps == [] {
      LaterSame(db);
    } else {
      StepKeeps(db, steps[0]);
      RunKeeps(Apply(db, steps[0]), steps[1..]);
      LaterTrans(db, Apply(db, steps[0]), ExecSteps(db, steps));
    }
  }

  lemma LaterSame(db: Db)
    ensures Later(db, db)
  {
  }

  /** The empty tables, where every run of the program starts. */
  lemma StartConsistent()
    ensures Consistent(Db(map[], [], []))
  {
  }

  // ---- conservation -----------------------------------------------------

  lemma {:induction false} BatchesCover(db: Db, n: nat, f: Field)
    requires Consistent(db) && n <= |db.batches|
    ensures StatedInAll(db.batches[..n], f) == SumOf(db.txns, f, Below(n))
    decreases n
  {
    hide SumOf, Priced, Filed;
    if n == 0 {
      SumNone(db.txns, f, Below(0));
    } else {
      BatchesCover(db, n - 1, f);
      assert Balanced(db, n - 1);
      SumSplits(db.txns, f, Below(n), Below(n - 1), Member(n - 1));
      assert db.batches[..n][..n - 1] == db.batches[..n - 1];
    }
  }

  /**
    Nothing is lost or counted twice: for the count, the gross, each fee and the net, the batches
    and the unsettled transactions together make up every transaction generated.
  */
  lemma Conserved(db: Db, f: Field)
    requires Consistent(db)
    ensures StatedInAll(db.batches, f) + SumOf(db.txns, f, Unsettled) == SumOf(db.txns, f, Everything)
  {
    var n := |db.batches|;
    assert forall k | 0 <= k < |db.txns| :: Filed(db, db.txns[k]);
    BatchesCover(db, n, f);
    assert db.batches[..n] == db.batches;
    hide SumOf, Priced, Balanced;
    SumSplits(db.txns, f, Everything, Below(n), Unsettled);
  }

  function Amounts(amounts: seq<nat>): nat {
    if amounts == [] then 0 else Amounts(amounts[..|amounts| - 1]) + amounts[|amounts| - 1]
  }

  /** All that is sold during a run. */
  ghost function SoldIn(db: Db, steps: seq<Step>): nat
    decreases |steps|
  {
    if steps == [] then 0
    else
      (if steps[0].Sale? && Known(db, steps[0].tenant, steps[0].merchant) then Amounts(steps[0].amounts) else 0)
      + SoldIn(Apply(db, steps[0]), steps[1..])
  }

  lemma {:induction false} NewTxnsGross(tenant: int, merchant: int, terms: Terms, date: int, amounts: seq<nat>)
    requires terms.Valid()
    ensures SumOf(NewTxns(tenant, merchant, terms, date, amounts), Gross, Everything) == Amounts(amounts)
    decreases |amounts|
  {
    hide CalcFees, ExpectedDate;
    if amounts != [] {
      var n := |amounts| - 1;
      NewTxnsGross(tenant, merchant, terms, date, amounts[..n]);
      var x := NewTxns(tenant, merchant, terms, date, amounts);
      assert x[..n] == NewTxns(tenant, merchant, terms, date, amounts[..n]);
      SumStep(x, Gross, Everything);
    }
  }

  lemma StepGross(db: Db, step: Step)
    requires Consistent(db) && Admissible(db, step)
    ensures SumOf(Apply(db, step).txns, Gross, Everything) == SumOf(db.txns, Gross, Everything)
            + if step.Sale? && Known(db, step.tenant, step.merchant) then Amounts(step.amounts) else 0
  {
    hide SumOf, Amounts, CalcFees, NewTxns, Idle, Priced, Filed, Balanced, ValidTerms, Totals;
    match step {
      case Sale(tenant, merchant, date, amounts) =>
        if Known(db, tenant, merchant) {
          var terms := db.merchants[merchant].terms;
          assert ValidTerms(terms);
          ValidIsValid(terms);
          NewTxnsGross(tenant, merchant, terms, date, amounts);
          SumConcat(db.txns, NewTxns(tenant, merchant, terms, date, amounts), Gross, Everything);
        }
      case Settlement(tenant, merchant, date) =>
        var e := Settle(db, tenant, merchant, date);
        SumSame(db.txns, e.txns, Gross, Everything, Everything);
      case Enrol(_, _) =>
    }
  }

  /**
    Over every run, what the batches state and what is still unsettled add up to exactly the
    amounts sold, since the start of the run and before it.
  */
  lemma {:induction false} SalesAccounted(db: Db, steps: seq<Step>)
    requires Consistent(db) && Run(db, steps)
    ensures var e := ExecSteps(db, steps);
            StatedInAll(e.batches, Gross) + SumOf(e.txns, Gross, Unsettled)
            == SumOf(db.txns, Gross, Everything) + SoldIn(db, steps)
    decreases |steps|
  {
    hide Consistent, Later, Apply, SumOf, StatedInAll, Admissible, Amounts;
    if steps == [] {
      Conserved(db, Gross);
    } else {
      var m := Apply(db, steps[0]);
      StepKeeps(db, steps[0]);
      StepGross(db, steps[0]);
      SalesAccounted(m, steps[1..]);
    }
  }

  /** Settling a date leaves none of the merchant's transactions of that date unsettled. */
  lemma SettleSettles(db: Db, tenant: int, merchant: int, date: int)
    requires Known(db, tenant, merchant)
    ensures !SomePending(Settle(db, tenant, merchant, date).txns, tenant, merchant, date)
  {
    hide SumOf;
  }

  /** Settling it again returns None and changes nothing. */
  lemma SettleAgain(db: Db, tenant: int, merchant: int, date: int)
    ensures var e := Settle(db, tenant, merchant, date);
            Idle(e, tenant, merchant, date) && Settle(e, tenant, merchant, date) == e
  {
    if Known(db, tenant, merchant) {
      SettleSettles(db, tenant, merchant, date);
    }
  }

  // ---- fee rounding over a batch ----------------------------------------

  lemma MdrExact(amount: nat, terms: Terms)
    requires terms.Valid()
    ensures 10000 * CalcFees(amount, terms).mdr <= amount * terms.mdrBps < 10000 * (CalcFees(amount, terms).mdr + 1)
  {
    FeeRounding(amount, terms);
    var mdr, bps := CalcFees(amount, terms).mdr, terms.mdrBps;
    hide CalcFees;
    assert amount as real * MdrRate(terms) * 10000.0 == amount as real * bps as real == (amount * bps) as real;
    assert (10000 * mdr) as real == 10000.0 * mdr as real;
    assert (10000 * (mdr + 1)) as real == 10000.0 * (mdr as real + 1.0);
  }

  ghost predicate SameTerms(x: seq<Txn>, g: Group, terms: Terms) {
    && terms.Valid()
    && forall k | 0 <= k < |x| && In(x[k], g) :: x[k].charge == CalcFees(x[k].amount, terms)
  }

  lemma SameTermsFront(x: seq<Txn>, g: Group, terms: Terms)
    requires SameTerms(x, g, terms) && x != []
    ensures SameTerms(x[..|x| - 1], g, terms)
  {
  }

  lemma SumStep(x: seq<Txn>, f: Field, g: Group)
    requires x != []
    ensures SumOf(x, f, g) == SumOf(x[..|x| - 1], f, g) + Part(x[|x| - 1], f, g)
  {
  }

  lemma LastDrift(x: Txn, g: Group, terms: Terms)
    requires terms.Valid() && (In(x, g) ==> x.charge == CalcFees(x.amount, terms))
    ensures 10000 * Part(x, Mdr, g) <= Part(x, Gross, g) * terms.mdrBps <= 10000 * (Part(x, Mdr, g) + Part(x, Count, g))
    ensures Part(x, Count, g) > 0 ==> Part(x, Gross, g) * terms.mdrBps < 10000 * (Part(x, Mdr, g) + Part(x, Count, g))
  {
    if In(x, g) {
      MdrExact(x.amount, terms);
      hide CalcFees;
    }
  }

  lemma {:induction false} MdrDrift(x: seq<Txn>, g: Group, terms: Terms)
    requires SameTerms(x, g, terms)
    ensures 10000 * SumOf(x, Mdr, g) <= SumOf(x, Gross, g) * terms.mdrBps <= 10000 * (SumOf(x, Mdr, g) + SumOf(x, Count, g))
    ensures SumOf(x, Count, g) > 0 ==>
              SumOf(x, Gross, g) * terms.mdrBps < 10000 * (SumOf(x, Mdr, g) + SumOf(x, Count, g))
    decreases |x|
  {
    if x != [] {
      var last := x[|x| - 1];
      SameTermsFront(x, g, terms);
      MdrDrift(x[..|x| - 1], g, terms);
      LastDrift(last, g, terms);
      SumStep(x, Mdr, g);
      SumStep(x, Gross, g);
      SumStep(x, Count, g);
      hide *;
      Distribute(SumOf(x[..|x| - 1], Gross, g), Part(last, Gross, g), terms.mdrBps);
      CountOne(last, g);
    }
  }

  lemma CountOne(x: Txn, g: Group)
    ensures Part(x, Count, g) == 0 || Part(x, Count, g) == 1
  {
  }

  lemma Distribute(a: int, b: int, c: int)
    ensures (a + b) * c == a * c + b * c
  {
  }

  /** `got` falls short of rate times `base` by less than n (by nothing if n is 0). */
  ghost predicate Short(base: int, rate: real, got: int, n: int) {
    && got as real <= base as real * rate <= (got + n) as real
    && (n > 0 ==> base as real * rate < (got + n) as real)
  }

  lemma ShortAdds(a: int, b: int, rate: real, v: int, w: int, n: int, c: int)
    requires Short(a, rate, v, n) && Short(b, rate, w, c) && n >= 0 && c >= 0
    ensures Short(a + b, rate, v + w, n + c)
  {
    var x, y := a as real * rate, b as real * rate;
    assert (a + b) as real * rate == x + y;
  }

  lemma LastVat(x: Txn, g: Group, terms: Terms)
    requires terms.Valid() && (In(x, g) ==> x.charge == CalcFees(x.amount, terms))
    ensures Short(Part(x, Mdr, g), terms.vatOnMdr, Part(x, Vat, g), Part(x, Count, g))
  {
    if In(x, g) {
      FeeRounding(x.amount, terms);
      hide CalcFees;
    }
  }

  lemma {:induction false} VatDrift(x: seq<Txn>, g: Group, terms: Terms)
    requires SameTerms(x, g, terms)
    ensures Short(SumOf(x, Mdr, g), terms.vatOnMdr, SumOf(x, Vat, g), SumOf(x, Count, g))
    decreases |x|
  {
    if x == [] {
    } else {
      hide Short;
      var last, y := x[|x| - 1], x[..|x| - 1];
      SameTermsFront(x, g, terms);
      VatDrift(y, g, terms);
      LastVat(last, g, terms);
      SumStep(x, Mdr, g);
      SumStep(x, Vat, g);
      SumStep(x, Count, g);
      CountOne(last, g);
      CountPositive(y, g);
      ShortAdds(SumOf(y, Mdr, g), Part(last, Mdr, g), terms.vatOnMdr, SumOf(y, Vat, g), Part(last, Vat, g),
                SumOf(y, Count, g), Part(last, Count, g));
    }
  }

  lemma LastWht(x: Txn, g: Group, terms: Terms)
    requires terms.Valid() && (In(x, g) ==> x.charge == CalcFees(x.amount, terms))
    ensures Short(Part(x, Gross, g), terms.wht, Part(x, Gross, g) - Part(x, Mdr, g) - Part(x, Vat, g) - Part(x, Net, g),
                  Part(x, Count, g))
  {
    if In(x, g) {
      FeeRounding(x.amount, terms);
      hide CalcFees;
    }
  }

  /** What a sum keeps of the gross besides the other fees and the net. */
  function Withheld(x: seq<Txn>, g: Group): int {
    SumOf(x, Gross, g) - SumOf(x, Mdr, g) - SumOf(x, Vat, g) - SumOf(x, Net, g)
  }

  lemma {:induction false} WhtDrift(x: seq<Txn>, g: Group, terms: Terms)
    requires SameTerms(x, g, terms)
    ensures Short(SumOf(x, Gross, g), terms.wht, Withheld(x, g), SumOf(x, Count, g))
    decreases |x|
  {
    if x == [] {
    } else {
      hide Short;
      var last, y := x[|x| - 1], x[..|x| - 1];
      SameTermsFront(x, g, terms);
      WhtDrift(y, g, terms);
      LastWht(last, g, terms);
      SumStep(x, Gross, g);
      SumStep(x, Mdr, g);
      SumStep(x, Vat, g);
      SumStep(x, Net, g);
      SumStep(x, Count, g);
      CountOne(last, g);
      CountPositive(y, g);
      hide SumOf, Part;
      var kept := Part(last, Gross, g) - Part(last, Mdr, g) - Part(last, Vat, g) - Part(last, Net, g);
      ShortAdds(SumOf(y, Gross, g), Part(last, Gross, g), terms.wht, Withheld(y, g), kept,
                SumOf(y, Count, g), Part(last, Count, g));
      assert Withheld(x, g) == Withheld(y, g) + kept;
    }
  }

  /**
    A batch of n transactions falls short of its exact fee rates by less than n minor units: the
    MDR of the rate times the gross, the VAT of the rate times the MDR, and what is withheld from
    the net, besides those two, of the withholding rate times the gross.
  */
  lemma BatchDrift(db: Db, b: nat)
    requires Consistent(db) && b < |db.batches|
    ensures db.batches[b].merchant in db.merchants
    ensures var batch := db.batches[b];
            var terms := db.merchants[batch.merchant].terms;
            && batch.count >= 1
            && 10000 * batch.mdr <= batch.gross * terms.mdrBps < 10000 * (batch.mdr + batch.count)
            && Short(batch.mdr, terms.vatOnMdr, batch.vat, batch.count)
            && Short(batch.gross, terms.wht, batch.gross - batch.mdr - batch.vat - batch.net, batch.count)
  {
    hide *;
    BatchSums(db, b);
    BatchMerchant(db, b);
    var terms := db.merchants[db.batches[b].merchant].terms;
    MembersPriced(db, b, terms);
    MdrDrift(db.txns, Member(b), terms);
    VatDrift(db.txns, Member(b), terms);
    WhtDrift(db.txns, Member(b), terms);
    WithheldIs(db.txns, Member(b));
  }

  lemma WithheldIs(x: seq<Txn>, g: Group)
    ensures Withheld(x, g) == SumOf(x, Gross, g) - SumOf(x, Mdr, g) - SumOf(x, Vat, g) - SumOf(x, Net, g)
  {
  }

  lemma BatchSums(db: Db, b: nat)
    requires Consistent(db) && b < |db.batches|
    ensures var batch, g := db.batches[b], Member(b);
            && batch.count == SumOf(db.txns, Count, g) >= 1 && batch.gross == SumOf(db.txns, Gross, g)
            && batch.mdr == SumOf(db.txns, Mdr, g) && batch.vat == SumOf(db.txns, Vat, g)
            && batch.net == SumOf(db.txns, Net, g)
  {
    hide SumOf, Priced, Filed, ValidMerchants;
    assert Balanced(db, b);
    assert Stated(db.batches[b], Count) == SumOf(db.txns, Count, Member(b));
    assert Stated(db.batches[b], Gross) == SumOf(db.txns, Gross, Member(b));
    assert Stated(db.batches[b], Mdr) == SumOf(db.txns, Mdr, Member(b));
    assert Stated(db.batches[b], Vat) == SumOf(db.txns, Vat, Member(b));
    assert Stated(db.batches[b], Net) == SumOf(db.txns, Net, Member(b));
  }

  lemma BatchMerchant(db: Db, b: nat)
    requires Consistent(db) && b < |db.batches|
    ensures db.batches[b].merchant in db.merchants
  {
    hide SumOf, CalcFees, ExpectedDate;
    BatchSums(db, b);
    CountPositive(db.txns, Member(b));
    var k :| 0 <= k < |db.txns| && In(db.txns[k], Member(b));
    assert Priced(db, db.txns[k]) && Filed(db, db.txns[k]);
  }

  lemma MembersPriced(db: Db, b: nat, terms: Terms)
    requires Consistent(db) && b < |db.batches| && db.batches[b].merchant in db.merchants
    requires terms == db.merchants[db.batches[b].merchant].terms
    ensures SameTerms(db.txns, Member(b), terms)
  {
    hide CalcFees, SumOf, ExpectedDate;
    forall k | 0 <= k < |db.txns| && In(db.txns[k], Member(b))
      ensures db.txns[k].charge == CalcFees(db.txns[k].amount, terms)
    {
      assert Priced(db, db.txns[k]) && Filed(db, db.txns[k]);
    }
  }
}
