/**
  The point-of-sale engines as they run: `generate_merchant_day`, `settle_merchant_day` and the
  backfill endpoint of `admin/api.py`, over tables updated in place.
*/
module PosEngine {
  import opened Prelude
  import opened Calendar
  import opened Fees
  import opened SimScheduler
  import opened Pos

  /** Transactions committed together. */
  const BATCH_SIZE := 100

  lemma ExpectedDateIs(terms: Terms, date: int, r: int)
    requires ValidTerms(terms) && IsSettlementDate(date, WaitDays(terms), terms.weekend, r)
    ensures r == ExpectedDate(terms, date)
  {
    SettlementDateIs(date, WaitDays(terms), terms.weekend);
    SettlementUnique(date, WaitDays(terms), terms.weekend, r, ExpectedDate(terms, date));
  }

  lemma NewTxnsStep(tenant: int, merchant: int, terms: Terms, date: int, amounts: seq<nat>, i: nat)
    requires terms.Valid() && i < |amounts|
    ensures NewTxns(tenant, merchant, terms, date, amounts[..i + 1])
         == NewTxns(tenant, merchant, terms, date, amounts[..i])
            + [NewTxn(tenant, merchant, terms, date, amounts[i])]
  {
    hide CalcFees, ExpectedDate;
  }

  lemma NewTxnsNone(tenant: int, merchant: int, terms: Terms, date: int, amounts: seq<nat>)
    requires terms.Valid() && amounts == []
    ensures NewTxns(tenant, merchant, terms, date, amounts) == []
  {
  }

  /** The rows `ids` point at are those of the group, in table order. */
  ghost predicate Picked(txns: seq<Txn>, n: nat, g: Group, ids: seq<nat>)
    requires n <= |txns|
  {
    && (forall p | 0 <= p < |ids| :: ids[p] < n && In(txns[ids[p]], g))
    && (forall k | 0 <= k < n && In(txns[k], g) :: k in ids)
    && (forall p, q | 0 <= p < q < |ids| :: ids[p] < ids[q])
  }

  lemma PickedPending(db: Db, tenant: int, merchant: int, date: int, ids: seq<nat>)
    requires Picked(db.txns, |db.txns|, Chosen(tenant, merchant, date), ids)
    ensures forall p | 0 <= p < |ids| :: ids[p] < |db.txns|
    ensures Idle(db, tenant, merchant, date) <==> ids == [] || !Known(db, tenant, merchant)
  {
    hide In;
    if ids != [] {
      assert In(db.txns[ids[0]], Chosen(tenant, merchant, date));
    }
  }

  lemma PickedMarks(x: seq<Txn>, y: seq<Txn>, tenant: int, merchant: int, date: int, ids: seq<nat>, id: nat)
    requires Picked(x, |x|, Chosen(tenant, merchant, date), ids) && |y| == |x|
    requires forall k | 0 <= k < |x| :: y[k] == if k in ids then x[k].(batch := Some(id)) else x[k]
    ensures y == Marked(x, tenant, merchant, date, id)
  {
    hide In;
  }

  /** The generation jobs asked for the merchant, in the order they were. */
  ghost function ChainJobs(requests: seq<Request<Payload>>, tenant: int, merchant: int): seq<Request<Payload>> {
    if requests == [] then []
    else
      var r := requests[|requests| - 1];
      ChainJobs(requests[..|requests| - 1], tenant, merchant)
      + if r.payload.GenerateDay? && r.payload.tenant == tenant && r.payload.merchant == merchant then [r] else []
  }

  /** One generation job for each of the n days after `date`, at its midnight. */
  ghost function NextDays(tenant: int, merchant: int, date: int, n: nat): seq<Request<Payload>> {
    seq(n, i => Request(Some(tenant), (date + 1 + i) * DAY, GenerateDay(tenant, merchant, date + 1 + i)))
  }

  /** Rows `from` up to `to` are the sales of a day: one for each amount, in order. */
  ghost predicate SoldRows(
    txns: seq<Txn>, from: nat, to: nat, tenant: int, merchant: int, date: int, amounts: seq<nat>)
  {
    && from <= to <= |txns| && to - from == |amounts|
    && forall k | from <= k < to ::
         txns[k].tenant == tenant && txns[k].merchant == merchant && txns[k].saleDate == date
         && txns[k].amount == amounts[k - from]
  }

  /** The amounts drawn for a merchant's day: none for an inactive merchant. */
  function Drawn(sample: Sampler, m: Merchant, merchant: int, date: int): seq<nat> {
    if m.active then sample(m.tenant, merchant, date) else []
  }

  /** Date by date from `start`, the rows between two cuts are what was drawn for the merchant's day. */
  ghost predicate SoldDays(txns: seq<Txn>, cuts: seq<nat>, sample: Sampler, m: Merchant, merchant: int, start: int) {
    forall i | 0 <= i < |cuts| - 1 ::
      SoldRows(txns, cuts[i], cuts[i + 1], m.tenant, merchant, start + i, Drawn(sample, m, merchant, start + i))
  }

  /** The counts of a merchant's days, as the rows are cut. */
  ghost predicate PerDay(perDay: seq<nat>, cuts: seq<nat>, days: nat) {
    |perDay| == days && |cuts| == days + 1 && forall i | 0 <= i < days :: cuts[i] + perDay[i] == cuts[i + 1]
  }

  /** The first date of the request. */
  function First(backfill: bool, days: nat, today: int): int {
    if backfill then today - (days - 1) else today
  }

  /** Behind the first `before` rows there is, merchant by merchant, one section of rows for each date. */
  ghost predicate Sections(
    before: nat, txns: seq<Txn>, merchants: map<int, Merchant>, sample: Sampler, found: seq<int>, cuts: seq<seq<nat>>,
    days: nat, start: int)
  {
    && |cuts| == |found|
    && (forall p | 0 <= p < |cuts| :: |cuts[p]| == days + 1)
    && (forall p | 0 <= p < |cuts| :: cuts[p][0] == if p == 0 then before else cuts[p - 1][days])
    && |txns| == (if cuts == [] then before else cuts[|cuts| - 1][days])
    && (forall p | 0 <= p < |cuts| ::
          found[p] in merchants && SoldDays(txns, cuts[p], sample, merchants[found[p]], found[p], start))
  }

  /** x, which was there before, became y: settled if its merchant sold in a backfill that drained its date. */
  ghost predicate Swept(
    x: Txn, y: Txn, found: seq<int>, merchants: map<int, Merchant>, cuts: seq<seq<nat>>, days: nat, backfill: bool,
    today: int)
  {
    && (x.merchant !in found ==> y == x)
    && (forall p | 0 <= p < |found| && found[p] == x.merchant ::
          && p < |cuts| && |cuts[p]| == days + 1 && found[p] in merchants
          && Drained(x, y, merchants[found[p]].tenant, found[p], today - days + 1,
                     if backfill && cuts[p][0] < cuts[p][days] then today + 3 else today - days + 1))
  }

  class Engine {
    const sample: Sampler
    var merchants: map<int, Merchant>
    var txns: seq<Txn>
    var batches: seq<Batch>
    var requests: seq<Request<Payload>>

    function View(): Db
      reads this
    {
      Db(merchants, txns, batches)
    }

    constructor (sample: Sampler, merchants: map<int, Merchant>)
      ensures View() == Db(merchants, [], []) && requests == [] && this.sample == sample
    {
      this.sample, this.merchants := sample, merchants;
      this.txns, this.batches, this.requests := [], [], [];
    }

    /** The batch loop of `generate_merchant_day`: each pass commits up to a hundred transactions. */
    method CommitDay(
      tenant: int, merchant: int, date: int, terms: Terms, settleDate: int, amounts: seq<nat>)
      returns (total: nat)
      requires ValidTerms(terms) && settleDate == ExpectedDate(terms, date)
      modifies this`txns
      ensures total == |amounts|
      ensures terms.Valid() && txns == old(txns) + NewTxns(tenant, merchant, terms, date, amounts)
    {
      hide NewTxns, CalcFees, ExpectedDate, ValidTerms, IsSettlementDate;
      ValidIsValid(terms);
      NewTxnsNone(tenant, merchant, terms, date, amounts[..0]);
      var start := 0;
      total := 0;
      while start < |amounts|
        invariant 0 <= start && total == if start < |amounts| then start else |amounts|
        invariant txns == old(txns) + NewTxns(tenant, merchant, terms, date, amounts[..total])
      {
        var end := if start + BATCH_SIZE < |amounts| then start + BATCH_SIZE else |amounts|;
        var session: seq<Txn> := [];
        for i := start to end
          invariant txns + session == old(txns) + NewTxns(tenant, merchant, terms, date, amounts[..i])
          invariant txns == old(txns) + NewTxns(tenant, merchant, terms, date, amounts[..start])
          invariant |session| == i - start
        {
          NewTxnsStep(tenant, merchant, terms, date, amounts, i);
          var x := Txn(tenant, merchant, amounts[i], CalcFees(amounts[i], terms), date, settleDate, None);
          TxnIs(tenant, merchant, terms, date, amounts[i], x);
          assert txns + (session + [x]) == (txns + session) + [x];
          session := session + [x];
        }
        txns := txns + session;
        total := total + |session|;
        start := start + BATCH_SIZE;
      }
      assert amounts[..total] == amounts;
    }

    /** `generate_merchant_day`. */
    method GenerateMerchantDay(tenant: int, merchant: int, date: int, scheduleNext: bool) returns (count: nat)
      requires ValidMerchants(View())
      modifies this`txns, this`requests
      ensures var amounts := DayAmounts(sample, old(View()), tenant, merchant, date);
              count == |amounts| && View() == Sell(old(View()), tenant, merchant, date, amounts)
      ensures requests == old(requests) +
                if scheduleNext then DayRequests(sample, old(View()), tenant, merchant, date) else []
      ensures |txns| == |old(txns)| + count && (!scheduleNext ==> requests == old(requests))
      ensures merchant !in merchants || merchants[merchant].tenant != tenant ==>
                count == 0 && txns == old(txns) && requests == old(requests)
      ensures merchant in merchants && merchants[merchant].tenant == tenant && !merchants[merchant].active ==>
                && count == 0 && txns == old(txns)
                && (scheduleNext ==>
                      requests == old(requests)
                        + [Request(Some(tenant), (date + 1) * DAY, GenerateDay(tenant, merchant, date + 1))])
      ensures merchant in merchants && merchants[merchant].tenant == tenant && merchants[merchant].active ==>
                && DaySold(old(txns), txns, tenant, merchant, merchants[merchant].terms, date,
                           sample(tenant, merchant, date))
                && (scheduleNext ==>
                      && requests == old(requests)
                           + [Request(Some(tenant), (date + 1) * DAY, GenerateDay(tenant, merchant, date + 1))]
                           + if count == 0 then []
                             else
                               var settled := txns[|old(txns)|].expected;
                               [Request(Some(tenant), settled * DAY, SettleDay(tenant, merchant, settled))])
    {
      hide ExpectedDate, NewTxns, ValidTerms, IsSettlementDate, DaySold;
      DayIs(sample, View(), tenant, merchant, date);
      ghost var sold := Sell(View(), tenant, merchant, date, DayAmounts(sample, View(), tenant, merchant, date));
      if Known(View(), tenant, merchant) && merchants[merchant].active {
        SoldCount(txns, sold.txns, tenant, merchant, merchants[merchant].terms, date, sample(tenant, merchant, date));
      }
      if merchant !in merchants || merchants[merchant].tenant != tenant {
        return 0;
      }
      var m := merchants[merchant];
      ValidIsValid(m.terms);
      var amounts := if m.active then sample(tenant, merchant, date) else [];
      if amounts == [] {
        NewTxnsNone(tenant, merchant, m.terms, date, amounts);
        if scheduleNext {
          requests := requests + [NextDay(tenant, merchant, date)];
        }
        return 0;
      }
      TermsWork(m.terms);
      var settleDate := ExpectedSettlementDate(date, m.terms.settlementDays, m.terms.weekend);
      ExpectedDateIs(m.terms, date, settleDate);
      count := CommitDay(tenant, merchant, date, m.terms, settleDate, amounts);
      if scheduleNext {
        requests := requests + [NextDay(tenant, merchant, date)] + [SettleOn(tenant, merchant, settleDate)];
      }
    }

    /** The query for pending transactions. */
    method SelectPending(g: Group) returns (ids: seq<nat>)
      ensures Picked(txns, |txns|, g, ids)
    {
      ids := [];
      for k := 0 to |txns|
        invariant Picked(txns, k, g, ids)
      {
        if In(txns[k], g) {
          ids := ids + [k];
        }
      }
    }

    /** `sum` of one column over the selected rows. */
    method Aggregate(ids: seq<nat>, g: Group, f: Field) returns (sum: int)
      requires Picked(txns, |txns|, g, ids)
      ensures sum == SumOf(txns, f, g)
    {
      hide SumOf, In, Picked;
      sum := 0;
      ghost var done := 0;
      NoRows(txns, f, g);
      for p := 0 to |ids|
        invariant Picked(txns, |txns|, g, ids)
        invariant done == (if p == 0 then 0 else ids[p - 1] + 1) <= |txns|
        invariant sum == SumOf(txns[..done], f, g)
      {
        SumNext(txns, f, g, done, ids, p);
        sum := sum + Measure(txns[ids[p]], f);
        done := ids[p] + 1;
      }
      SumSkips(txns, f, g, done, |txns|, ids, |ids|);
      assert txns[..|txns|] == txns;
    }

    /** `settle_merchant_day`: the batch it returns, if any. */
    method SettleMerchantDay(tenant: int, merchant: int, date: int) returns (batch: Option<nat>)
      modifies this`txns, this`batches
      ensures View() == Settle(old(View()), tenant, merchant, date)
      ensures batch == if Idle(old(View()), tenant, merchant, date) then None else Some(|old(batches)|)
    {
      hide SumOf, In, Picked, Marked, Idle;
      var g := Chosen(tenant, merchant, date);
      var ids := SelectPending(g);
      PickedPending(View(), tenant, merchant, date, ids);
      if ids == [] {
        return None;
      }
      if merchant !in merchants || merchants[merchant].tenant != tenant {
        return None;
      }
      var count := |ids|;
      PickedCount(txns, g, ids);
      var gross := Aggregate(ids, g, Gross);
      var mdr := Aggregate(ids, g, Mdr);
      var vat := Aggregate(ids, g, Vat);
      var net := Aggregate(ids, g, Net);
      var id := |batches|;
      batches := batches + [Batch(tenant, merchant, date, count, gross, mdr, vat, net)];
      for p := 0 to |ids|
        invariant |txns| == |old(txns)| && View() == Db(old(merchants), txns, batches)
        invariant batches == old(batches) + [Totals(old(txns), tenant, merchant, date)]
        invariant forall k | 0 <= k < |txns| ::
          txns[k] == if k in ids[..p] then old(txns)[k].(batch := Some(id)) else old(txns)[k]
      {
        assert ids[..p + 1] == ids[..p] + [ids[p]];
        txns := txns[ids[p] := txns[ids[p]].(batch := Some(id))];
      }
      assert ids[..|ids|] == ids;
      PickedMarks(old(txns), txns, tenant, merchant, date, ids, id);
      batch := Some(id);
    }

    // ---- the backfill endpoint --------------------------------------------

    /** The merchants named in the request that exist, each once. */
    method FindMerchants(ids: seq<int>) returns (found: seq<int>)
      ensures forall m :: m in found <==> m in ids && m in merchants
      ensures forall p, q | 0 <= p < q < |found| :: found[p] != found[q]
    {
      found := [];
      for i := 0 to |ids|
        invariant forall m :: m in found <==> m in ids[..i] && m in merchants
        invariant forall p, q | 0 <= p < q < |found| :: found[p] != found[q]
      {
        if ids[i] in merchants && ids[i] !in found {
          found := found + [ids[i]];
        }
      }
    }

    /** One turn of the generation loop: a date of a merchant that is there. */
    method GenerateNext(tenant: int, merchant: int, date: int) returns (count: nat)
      requires Consistent(View()) && Known(View(), tenant, merchant)
      modifies this`txns, this`requests
      ensures Consistent(View()) && Later(old(View()), View()) && Known(View(), tenant, merchant)
      ensures |txns| == |old(txns)| + count && txns[..|old(txns)|] == old(txns)
      ensures forall k | |old(txns)| <= k < |txns| :: Generated(txns[k], tenant, merchant, date, date + 1)
      ensures merchant in merchants
      ensures SoldRows(txns, |old(txns)|, |txns|, tenant, merchant, date,
                       Drawn(sample, merchants[merchant], merchant, date))
      ensures forall t, m :: ChainJobs(requests, t, m) == ChainJobs(old(requests), t, m)
                               + if t == tenant && m == merchant then [NextDay(tenant, merchant, date)] else []
    {
      hide Consistent, Later, Sell, DayRequests, DayAmounts, Generated, ChainJobs, NextDay, ValidMerchants,
           SoldRows, Drawn, DaySold;
      ghost var db, asked := View(), requests;
      ConsistentValid(db);
      count := GenerateMerchantDay(tenant, merchant, date, true);
      ghost var amounts := DayAmounts(sample, db, tenant, merchant, date);
      SellKeeps(db, tenant, merchant, date, amounts);
      SellAppends(db, tenant, merchant, date, amounts);
      DayDrawn(sample, db.txns, txns, merchants[merchant], merchant, date);
      forall t, m ensures ChainJobs(requests, t, m) == ChainJobs(asked, t, m)
          + if t == tenant && m == merchant then [NextDay(tenant, merchant, date)] else []
      {
        DayStartsChain(sample, db, asked, tenant, merchant, date, t, m);
      }
    }

    /** The generation loop of `generate_pos_for_merchants` for one merchant. */
    method GenerateDays(tenant: int, merchant: int, start: int, days: nat)
      returns (total: nat, perDay: seq<nat>, ghost cuts: seq<nat>)
      requires Consistent(View()) && Known(View(), tenant, merchant)
      modifies this`txns, this`requests
      ensures Consistent(View()) && Later(old(View()), View())
      ensures |txns| == |old(txns)| + total
      ensures txns[..|old(txns)|] == old(txns)
      ensures forall k | |old(txns)| <= k < |txns| :: Generated(txns[k], tenant, merchant, start, start + days)
      ensures |perDay| == days && |cuts| == days + 1 && cuts[0] == |old(txns)| && cuts[days] == |txns|
      ensures forall i | 0 <= i < days :: cuts[i] + perDay[i] == cuts[i + 1]
      ensures merchant in merchants && SoldDays(txns, cuts, sample, merchants[merchant], merchant, start)
      ensures forall t, m :: ChainJobs(requests, t, m) == ChainJobs(old(requests), t, m)
                               + if t == tenant && m == merchant then NextDays(tenant, merchant, start, days) else []
    {
      hide Consistent, Later, Generated, ChainJobs, NextDays, NextDay, SoldRows, SoldDays, Drawn;
      LaterSame(View());
      NoDaysSold(txns, sample, merchants[merchant], merchant, start);
      total, perDay, cuts := 0, [], [|txns|];
      forall t, m
        ensures ChainJobs(requests, t, m) + NextDays(tenant, merchant, start, 0) == ChainJobs(requests, t, m)
      {
        NextDaysStep(tenant, merchant, start, 0);
      }
      for i := 0 to days
        invariant Consistent(View()) && Later(old(View()), View()) && Known(View(), tenant, merchant)
        invariant batches == old(batches) && merchants == old(merchants)
        invariant |txns| == |old(txns)| + total
        invariant txns[..|old(txns)|] == old(txns)
        invariant forall k | |old(txns)| <= k < |txns| :: Generated(txns[k], tenant, merchant, start, start + i)
        invariant |perDay| == i && |cuts| == i + 1 && cuts[0] == |old(txns)| && cuts[i] == |txns|
        invariant forall j | 0 <= j < i :: cuts[j] + perDay[j] == cuts[j + 1]
        invariant SoldDays(txns, cuts, sample, merchants[merchant], merchant, start)
        invariant forall t, m :: ChainJobs(requests, t, m) == ChainJobs(old(requests), t, m)
                                   + if t == tenant && m == merchant then NextDays(tenant, merchant, start, i) else []
      {
        ghost var db, asked, was := View(), requests, cuts;
        var count := GenerateNext(tenant, merchant, start + i);
        LaterTrans(old(View()), db, View());
        ChainGrows(old(requests), asked, requests, tenant, merchant, start, i);
        forall k | |old(txns)| <= k < |txns| ensures Generated(txns[k], tenant, merchant, start, start + i + 1) {
          if k < |db.txns| {
            assert txns[..|db.txns|][k] == txns[k];
            GeneratedWithin(txns[k], tenant, merchant, start, start + i, start, start + i + 1);
          } else {
            GeneratedWithin(txns[k], tenant, merchant, start + i, start + i + 1, start, start + i + 1);
          }
        }
        total, perDay, cuts := total + count, perDay + [count], cuts + [|txns|];
        SoldDaysGrow(db.txns, txns, was, sample, merchants[merchant], merchant, start);
      }
    }

    /** The drain loop of `generate_pos_for_merchants` for one merchant. */
    method Drain(tenant: int, merchant: int, start: int, days: nat, today: int) returns (made: nat)
      requires Consistent(View()) && Known(View(), tenant, merchant) && days > 0 && start + days == today + 1
      modifies this`txns, this`batches
      ensures Consistent(View()) && Later(old(View()), View())
      ensures |txns| == |old(txns)| && |batches| == |old(batches)| + made
      ensures forall k | 0 <= k < |txns| :: Drained(old(txns)[k], txns[k], tenant, merchant, start, today + 3)
    {
      hide Consistent, Later, Settle, Drained, Known, Idle;
      LaterSame(View());
      made := 0;
      ghost var hi := start;
      forall k | 0 <= k < |txns| ensures Drained(txns[k], txns[k], tenant, merchant, start, start) {
        NotDrained(txns[k], tenant, merchant, start);
      }
      for i := 0 to days
        invariant Consistent(View()) && Later(old(View()), View())
        invariant Known(View(), tenant, merchant) && merchants == old(merchants)
        invariant |txns| == |old(txns)| && |batches| == |old(batches)| + made
        invariant hi == if i == 0 then start else start + i + 2
        invariant forall k | 0 <= k < |txns| :: Drained(old(txns)[k], txns[k], tenant, merchant, start, hi)
      {
        for offset := 0 to 3
          invariant Consistent(View()) && Later(old(View()), View())
          invariant Known(View(), tenant, merchant) && merchants == old(merchants)
          invariant |txns| == |old(txns)| && |batches| == |old(batches)| + made
          invariant hi == if i == 0 then start + offset else start + i + (if offset == 3 then 3 else 2)
          invariant forall k | 0 <= k < |txns| :: Drained(old(txns)[k], txns[k], tenant, merchant, start, hi)
        {
          var settleFor := start + i + offset;
          if settleFor <= today + 2 {
            ghost var db := View();
            var batch := SettleMerchantDay(tenant, merchant, settleFor);
            SettleKeeps(db, tenant, merchant, settleFor);
            SettleShape(db, tenant, merchant, settleFor);
            LaterTrans(old(View()), db, View());
            KnownKept(db, View(), tenant, merchant);
            ghost var up := if settleFor == hi then hi + 1 else hi;
            forall k | 0 <= k < |txns| ensures Drained(old(txns)[k], txns[k], tenant, merchant, start, up) {
              DrainStep(db, tenant, merchant, settleFor, k, old(txns)[k], start, hi);
            }
            hi := up;
            if batch.Some? {
              made := made + 1;
            }
          }
        }
      }
    }

    /**
      `generate_pos_for_merchants`, when nothing fails. Merchant by merchant and date by date, what
      was drawn for the day is sold and one generation job is asked for, for the day after. After a
      backfill, what it made that is still pending is exactly what is expected later than two days
      from today; older rows of a merchant that sold something are swept with its own.
    */
    method GeneratePos(ids: seq<int>, days: nat, backfill: bool, today: int)
      returns (found: seq<int>, total: nat, settlementBatches: nat, perDay: seq<seq<nat>>, ghost cuts: seq<seq<nat>>)
      requires Consistent(View()) && days > 0
      modifies this`txns, this`batches, this`requests
      ensures Consistent(View()) && Later(old(View()), View()) && merchants == old(merchants)
      ensures |txns| == |old(txns)| + total && |batches| == |old(batches)| + settlementBatches
      ensures forall m :: m in found <==> m in ids && m in merchants
      ensures forall p, q | 0 <= p < q < |found| :: found[p] != found[q]
      ensures Sections(|old(txns)|, txns, merchants, sample, found, cuts, days, First(backfill, days, today))
      ensures |perDay| == |cuts| == |found| && forall p | 0 <= p < |found| :: PerDay(perDay[p], cuts[p], days)
      ensures forall k | |old(txns)| <= k < |txns| :: Leftover(txns[k], found, days, backfill, today)
      ensures forall k | 0 <= k < |old(txns)| ::
        Swept(old(txns)[k], txns[k], found, merchants, cuts, days, backfill, today)
      ensures forall p | 0 <= p < |found| ::
        ChainJobs(requests, merchants[found[p]].tenant, found[p])
        == ChainJobs(old(requests), merchants[found[p]].tenant, found[p])
           + NextDays(merchants[found[p]].tenant, found[p], First(backfill, days, today), days)
    {
      hide Consistent, Later, Generated, Drained, ChainJobs, NextDays, Known, SoldDays, Swept, Sections, PerDay,
           Leftover;
      LaterSame(View());
      ghost var start := First(backfill, days, today);
      found := FindMerchants(ids);
      total, settlementBatches, perDay, cuts := 0, 0, [], [];
      NothingSwept(old(View()), found, cuts, days, backfill, today);
      NoSections(|txns|, txns, merchants, sample, found, days, start);
      for i := 0 to |found|
        invariant Consistent(View()) && Later(old(View()), View()) && merchants == old(merchants)
        invariant |txns| == |old(txns)| + total && |batches| == |old(batches)| + settlementBatches
        invariant |perDay| == |cuts| == i
        invariant Sections(|old(txns)|, txns, merchants, sample, found[..i], cuts, days, start)
        invariant forall p | 0 <= p < i :: PerDay(perDay[p], cuts[p], days)
        invariant forall k | |old(txns)| <= k < |txns| :: Leftover(txns[k], found, days, backfill, today)
        invariant forall k | 0 <= k < |old(txns)| ::
          Swept(old(txns)[k], txns[k], found[..i], merchants, cuts, days, backfill, today)
        invariant forall p | 0 <= p < |found| :: found[p] in merchants
        invariant forall p | 0 <= p < |found| ::
          ChainJobs(requests, merchants[found[p]].tenant, found[p])
          == ChainJobs(old(requests), merchants[found[p]].tenant, found[p])
             + if p < i then NextDays(merchants[found[p]].tenant, found[p], start, days) else []
      {
        var m := found[i];
        var tenant := merchants[m].tenant;
        ghost var before := View();
        EnrolledKnown(before, m);
        var count, counts;
        ghost var more;
        count, counts, more := GenerateDays(tenant, m, if backfill then today - (days - 1) else today, days);
        LaterTrans(old(View()), before, View());
        KnownKept(before, View(), tenant, m);
        ghost var middle := View();
        total, perDay := total + count, perDay + [counts];
        PerDayIs(counts, more, days);
        if backfill && count > 0 {
          var made := Drain(tenant, m, today - (days - 1), days, today);
          settlementBatches := settlementBatches + made;
          LaterTrans(old(View()), middle, View());
          forall k | |old(txns)| <= k < |txns| ensures Leftover(txns[k], found, days, backfill, today) {
            if k < |before.txns| {
              assert middle.txns[..|before.txns|][k] == middle.txns[k];
              LeftoverKept(middle.txns[k], txns[k], tenant, m, found, days, today);
            } else {
              LeftoverNew(middle.txns[k], txns[k], tenant, m, found, days, today);
            }
          }
        } else {
          forall k | |old(txns)| <= k < |txns| ensures Leftover(txns[k], found, days, backfill, today) {
            if k < |before.txns| {
              assert middle.txns[..|before.txns|][k] == middle.txns[k];
            } else {
              LeftoverForward(txns[k], tenant, m, found, days, today);
            }
          }
        }
        forall k | 0 <= k < |old(txns)|
          ensures Swept(old(txns)[k], txns[k], found[..i + 1], merchants, cuts + [more], days, backfill, today)
        {
          assert middle.txns[..|before.txns|][k] == middle.txns[k];
          SweptStep(old(txns)[k], middle.txns[k], txns[k], found, i, merchants, cuts, more, days, backfill, today);
        }
        SectionsGrow(|old(txns)|, before.txns, middle.txns, txns, merchants, sample, found, i, cuts, more, days, start,
                     tenant, today + 3);
        cuts := cuts + [more];
      }
      assert found[..|found|] == found;
    }
  }

  // ---- the backfill's proof ---------------------------------------------

  /** A fresh transaction of the merchant, sold from `from` up to but not on `to`. */
  ghost predicate Generated(x: Txn, tenant: int, merchant: int, from: int, to: int) {
    x.tenant == tenant && x.merchant == merchant && x.batch == None && from <= x.saleDate < to && x.saleDate <= x.expected
  }

  /** x became y when the merchant's dates from lo up to but not hi were drained. */
  ghost predicate Drained(x: Txn, y: Txn, tenant: int, merchant: int, lo: int, hi: int) {
    if x.tenant == tenant && x.merchant == merchant && x.batch == None && lo <= x.expected < hi
    then y.batch.Some? && y == x.(batch := y.batch)
    else y == x
  }

  /** How the endpoint leaves a transaction it made. */
  ghost predicate Leftover(x: Txn, found: seq<int>, days: nat, backfill: bool, today: int) {
    && x.merchant in found
    && (backfill ==> today - days < x.saleDate <= today && (x.batch == None <==> x.expected > today + 2))
    && (!backfill ==> today <= x.saleDate < today + days && x.batch == None)
  }

  lemma NotDrained(x: Txn, tenant: int, merchant: int, lo: int)
    ensures Drained(x, x, tenant, merchant, lo, lo)
  {
  }

  lemma GeneratedWithin(x: Txn, tenant: int, merchant: int, from: int, to: int, lo: int, hi: int)
    requires Generated(x, tenant, merchant, from, to) && lo <= from && to <= hi
    ensures Generated(x, tenant, merchant, lo, hi)
  {
  }

  lemma LeftoverKept(x: Txn, y: Txn, tenant: int, m: int, found: seq<int>, days: nat, today: int)
    requires Leftover(x, found, days, true, today)
    requires Drained(x, y, tenant, m, today - (days - 1), today + 3)
    ensures Leftover(y, found, days, true, today)
  {
  }

  lemma LeftoverNew(x: Txn, y: Txn, tenant: int, m: int, found: seq<int>, days: nat, today: int)
    requires Generated(x, tenant, m, today - (days - 1), today + 1) && m in found
    requires Drained(x, y, tenant, m, today - (days - 1), today + 3)
    ensures Leftover(y, found, days, true, today)
  {
  }

  lemma LeftoverForward(x: Txn, tenant: int, m: int, found: seq<int>, days: nat, today: int)
    requires Generated(x, tenant, m, today, today + days) && m in found
    ensures Leftover(x, found, days, false, today)
  {
  }

  lemma ConsistentValid(db: Db)
    requires Consistent(db)
    ensures ValidMerchants(db)
  {
    hide Priced, Filed, Balanced;
  }

  lemma KnownKept(db: Db, e: Db, tenant: int, merchant: int)
    requires e.merchants == db.merchants
    ensures Known(e, tenant, merchant) <==> Known(db, tenant, merchant)
  {
  }

  lemma EnrolledKnown(db: Db, merchant: int)
    requires merchant in db.merchants
    ensures Known(db, db.merchants[merchant].tenant, merchant)
  {
  }

  /** A sale never settles before the day it is made. */
  lemma NeverEarlier(terms: Terms, date: int)
    requires ValidTerms(terms)
    ensures ExpectedDate(terms, date) >= date
  {
    SettlementDateIs(date, WaitDays(terms), terms.weekend);
  }

  lemma SellAppends(db: Db, tenant: int, merchant: int, date: int, amounts: seq<nat>)
    requires Consistent(db) && Known(db, tenant, merchant)
    ensures var e := Sell(db, tenant, merchant, date, amounts);
            && |e.txns| == |db.txns| + |amounts| && e.txns[..|db.txns|] == db.txns
            && e.batches == db.batches && e.merchants == db.merchants
            && forall k | |db.txns| <= k < |e.txns| :: Generated(e.txns[k], tenant, merchant, date, date + 1)
  {
    hide CalcFees, ExpectedDate, Priced, Filed, Balanced, ValidTerms;
    var terms := db.merchants[merchant].terms;
    assert ValidTerms(terms);
    ValidIsValid(terms);
    NeverEarlier(terms, date);
  }

  lemma {:induction false} ChainJobsConcat(
    x: seq<Request<Payload>>, y: seq<Request<Payload>>, tenant: int, merchant: int)
    ensures ChainJobs(x + y, tenant, merchant) == ChainJobs(x, tenant, merchant) + ChainJobs(y, tenant, merchant)
    decreases |y|
  {
    if y == [] {
      assert x + y == x;
    } else {
      assert (x + y)[..|x + y| - 1] == x + y[..|y| - 1];
      ChainJobsConcat(x, y[..|y| - 1], tenant, merchant);
    }
  }

  lemma ChainJobsOne(a: Request<Payload>, tenant: int, merchant: int)
    ensures ChainJobs([a], tenant, merchant) ==
            if a.payload.GenerateDay? && a.payload.tenant == tenant && a.payload.merchant == merchant then [a] else []
  {
    assert [a][..0] == [];
    assert ChainJobs([], tenant, merchant) == [];
  }

  lemma DayStartsChain(
    sample: Sampler, db: Db, asked: seq<Request<Payload>>, tenant: int, merchant: int, date: int, t: int, m: int)
    requires Known(db, tenant, merchant)
    ensures ChainJobs(asked + DayRequests(sample, db, tenant, merchant, date), t, m)
         == ChainJobs(asked, t, m) + if t == tenant && m == merchant then [NextDay(tenant, merchant, date)] else []
  {
    hide ExpectedDate, DayAmounts, ChainJobs;
    var more := DayRequests(sample, db, tenant, merchant, date);
    var a := NextDay(tenant, merchant, date);
    var b := SettleOn(tenant, merchant, ExpectedDate(db.merchants[merchant].terms, date));
    ChainJobsConcat(asked, more, t, m);
    ChainJobsConcat([a], [b], t, m);
    ChainJobsOne(a, t, m);
    ChainJobsOne(b, t, m);
    assert [a] + [b] == [a, b];
  }

  lemma NextDaysStep(tenant: int, merchant: int, date: int, n: nat)
    ensures NextDays(tenant, merchant, date, 0) == []
    ensures NextDays(tenant, merchant, date, n + 1)
         == NextDays(tenant, merchant, date, n) + [NextDay(tenant, merchant, date + n)]
  {
  }

  lemma ChainGrows(
    before: seq<Request<Payload>>, asked: seq<Request<Payload>>, now: seq<Request<Payload>>,
    tenant: int, merchant: int, date: int, n: nat)
    requires forall t, m :: ChainJobs(asked, t, m) == ChainJobs(before, t, m)
                              + if t == tenant && m == merchant then NextDays(tenant, merchant, date, n) else []
    requires forall t, m :: ChainJobs(now, t, m) == ChainJobs(asked, t, m)
                              + if t == tenant && m == merchant then [NextDay(tenant, merchant, date + n)] else []
    ensures forall t, m :: ChainJobs(now, t, m) == ChainJobs(before, t, m)
                             + if t == tenant && m == merchant then NextDays(tenant, merchant, date, n + 1) else []
  {
    hide ChainJobs, NextDays, NextDay;
    NextDaysStep(tenant, merchant, date, n);
    forall t, m ensures ChainJobs(now, t, m) == ChainJobs(before, t, m)
        + if t == tenant && m == merchant then NextDays(tenant, merchant, date, n + 1) else []
    {
      var x, y := ChainJobs(before, t, m), NextDays(tenant, merchant, date, n);
      var z := [NextDay(tenant, merchant, date + n)];
      assert (x + y) + z == x + (y + z);
    }
  }

  /** What a day's generation adds is what was drawn for it. */
  lemma DayDrawn(sample: Sampler, before: seq<Txn>, after: seq<Txn>, m: Merchant, merchant: int, date: int)
    requires m.active ==> DaySold(before, after, m.tenant, merchant, m.terms, date, sample(m.tenant, merchant, date))
    requires !m.active ==> after == before
    ensures |before| <= |after| && after[..|before|] == before
    ensures SoldRows(after, |before|, |after|, m.tenant, merchant, date, Drawn(sample, m, merchant, date))
  {
    hide IsSettlementDate;
    if m.active {
      forall k | |before| <= k < |after|
        ensures after[k].tenant == m.tenant && after[k].merchant == merchant && after[k].saleDate == date
        ensures after[k].amount == sample(m.tenant, merchant, date)[k - |before|]
      {
        var n := k - |before|;
        assert after[|before| + n].amount == sample(m.tenant, merchant, date)[n];
      }
    }
  }

  lemma SoldCount(
    before: seq<Txn>, after: seq<Txn>, tenant: int, merchant: int, terms: Terms, date: int, amounts: seq<nat>)
    requires DaySold(before, after, tenant, merchant, terms, date, amounts)
    ensures |after| == |before| + |amounts|
  {
  }

  lemma SoldRowsKept(
    x: seq<Txn>, y: seq<Txn>, from: nat, to: nat, tenant: int, merchant: int, date: int, amounts: seq<nat>)
    requires SoldRows(x, from, to, tenant, merchant, date, amounts) && |x| <= |y|
    requires forall k | 0 <= k < |x| :: y[k].(batch := x[k].batch) == x[k]
    ensures SoldRows(y, from, to, tenant, merchant, date, amounts)
  {
  }

  lemma SoldDaysKept(
    x: seq<Txn>, y: seq<Txn>, cuts: seq<nat>, sample: Sampler, m: Merchant, merchant: int, start: int)
    requires SoldDays(x, cuts, sample, m, merchant, start) && |x| <= |y|
    requires forall k | 0 <= k < |x| :: y[k].(batch := x[k].batch) == x[k]
    ensures SoldDays(y, cuts, sample, m, merchant, start)
  {
    hide SoldRows, Drawn;
    forall i | 0 <= i < |cuts| - 1
      ensures SoldRows(y, cuts[i], cuts[i + 1], m.tenant, merchant, start + i, Drawn(sample, m, merchant, start + i))
    {
      SoldRowsKept(x, y, cuts[i], cuts[i + 1], m.tenant, merchant, start + i, Drawn(sample, m, merchant, start + i));
    }
  }

  lemma SoldDaysGrow(
    x: seq<Txn>, y: seq<Txn>, cuts: seq<nat>, sample: Sampler, m: Merchant, merchant: int, start: int)
    requires cuts != [] && cuts[|cuts| - 1] == |x| <= |y| && y[..|x|] == x
    requires SoldDays(x, cuts, sample, m, merchant, start)
    requires var date := start + |cuts| - 1;
             SoldRows(y, |x|, |y|, m.tenant, merchant, date, Drawn(sample, m, merchant, date))
    ensures SoldDays(y, cuts + [|y|], sample, m, merchant, start)
  {
    hide SoldRows, Drawn;
    assert forall k | 0 <= k < |x| :: y[..|x|][k] == y[k];
    hide SoldDays;
    SoldDaysKept(x, y, cuts, sample, m, merchant, start);
    SoldDaysSnoc(y, cuts, sample, m, merchant, start);
  }

  lemma NoDaysSold(txns: seq<Txn>, sample: Sampler, m: Merchant, merchant: int, start: int)
    ensures SoldDays(txns, [|txns|], sample, m, merchant, start)
  {
  }

  lemma SoldDaysSnoc(y: seq<Txn>, cuts: seq<nat>, sample: Sampler, m: Merchant, merchant: int, start: int)
    requires cuts != [] && SoldDays(y, cuts, sample, m, merchant, start)
    requires var date := start + |cuts| - 1;
             SoldRows(y, cuts[|cuts| - 1], |y|, m.tenant, merchant, date, Drawn(sample, m, merchant, date))
    ensures SoldDays(y, cuts + [|y|], sample, m, merchant, start)
  {
    hide SoldRows, Drawn;
  }

  lemma PerDayIs(perDay: seq<nat>, cuts: seq<nat>, days: nat)
    requires |perDay| == days && |cuts| == days + 1 && forall i | 0 <= i < days :: cuts[i] + perDay[i] == cuts[i + 1]
    ensures PerDay(perDay, cuts, days)
  {
  }

  lemma NothingSwept(db: Db, found: seq<int>, cuts: seq<seq<nat>>, days: nat, backfill: bool, today: int)
    ensures forall k | 0 <= k < |db.txns| ::
              Swept(db.txns[k], db.txns[k], found[..0], db.merchants, cuts, days, backfill, today)
  {
  }

  lemma NoSections(
    before: nat, txns: seq<Txn>, merchants: map<int, Merchant>, sample: Sampler, found: seq<int>, days: nat, start: int)
    requires |txns| == before
    ensures Sections(before, txns, merchants, sample, found[..0], [], days, start)
  {
  }

  /** One more merchant: x became y so far, and then z, by the drain of the i-th merchant or as it was. */
  lemma SweptStep(
    x: Txn, y: Txn, z: Txn, found: seq<int>, i: nat, merchants: map<int, Merchant>, cuts: seq<seq<nat>>, more: seq<nat>,
    days: nat, backfill: bool, today: int)
    requires i < |found| && |cuts| == i && |more| == days + 1 && found[i] in merchants
    requires forall p, q | 0 <= p < q < |found| :: found[p] != found[q]
    requires Swept(x, y, found[..i], merchants, cuts, days, backfill, today)
    requires if backfill && more[0] < more[days]
             then Drained(y, z, merchants[found[i]].tenant, found[i], today - days + 1, today + 3)
             else z == y
    ensures Swept(x, z, found[..i + 1], merchants, cuts + [more], days, backfill, today)
  {
    assert found[..i + 1] == found[..i] + [found[i]];
    assert y.merchant == x.merchant;
    if x.merchant == found[i] {
      assert forall p | 0 <= p < i :: found[..i][p] != found[i];
      assert y == x;
    }
  }

  lemma SectionsGrow(
    before: nat, x: seq<Txn>, y: seq<Txn>, z: seq<Txn>, merchants: map<int, Merchant>, sample: Sampler, found: seq<int>,
    i: nat, cuts: seq<seq<nat>>, more: seq<nat>, days: nat, start: int, tenant: int, hi: int)
    requires i < |found| && found[i] in merchants && |more| == days + 1
    requires Sections(before, x, merchants, sample, found[..i], cuts, days, start)
    requires more[0] == |x| <= |y| == more[days] && y[..|x|] == x
    requires SoldDays(y, more, sample, merchants[found[i]], found[i], start)
    requires |z| == |y| && (z == y || forall k | 0 <= k < |y| :: Drained(y[k], z[k], tenant, found[i], start, hi))
    ensures Sections(before, z, merchants, sample, found[..i + 1], cuts + [more], days, start)
  {
    assert forall k | 0 <= k < |y| :: z[k].(batch := y[k].batch) == y[k];
    assert forall k | 0 <= k < |x| :: y[..|x|][k] == y[k];
    hide SoldDays, Drained;
    SoldDaysKept(y, z, more, sample, merchants[found[i]], found[i], start);
    forall p | 0 <= p < i ensures SoldDays(z, cuts[p], sample, merchants[found[p]], found[p], start) {
      assert found[..i][p] == found[p];
      SoldDaysKept(x, z, cuts[p], sample, merchants[found[p]], found[p], start);
    }
    assert forall p | 0 <= p < i :: found[..i][p] == found[p];
  }

  lemma DrainStep(db: Db, tenant: int, merchant: int, date: int, k: nat, was: Txn, lo: int, hi: int)
    requires Known(db, tenant, merchant) && k < |db.txns| && lo <= date <= hi
    requires Drained(was, db.txns[k], tenant, merchant, lo, hi)
    ensures k < |Settle(db, tenant, merchant, date).txns|
    ensures Drained(was, Settle(db, tenant, merchant, date).txns[k], tenant, merchant, lo, if date == hi then hi + 1 else hi)
  {
    hide SumOf;
    assert In(db.txns[k], Chosen(tenant, merchant, date)) ==> SomePending(db.txns, tenant, merchant, date);
  }

  /**
    What a backfill ending today can leave pending, for a region whose weekend is at most two
    consecutive days: T+1 sales only of today, and only if the next two days are weekend; T+2
    sales only of the last two dates; same-day sales never.
  */
  lemma BackfillLeaves(db: Db, x: Txn, today: int)
    requires Priced(db, x) && x.saleDate <= today && x.expected > today + 2
    requires var terms := db.merchants[x.merchant].terms; ShortWeekend(terms.weekend) && terms.settlementDays <= 2
    ensures var terms := db.merchants[x.merchant].terms;
            && 1 <= terms.settlementDays
            && (terms.settlementDays == 1 ==>
                  && x.saleDate == today
                  && !BusinessDay(today + 1, terms.weekend) && !BusinessDay(today + 2, terms.weekend))
            && (terms.settlementDays == 2 ==> today - 1 <= x.saleDate)
  {
    hide CalcFees, SettlementDate, ShortWeekend, BusinessDay;
    var terms := db.merchants[x.merchant].terms;
    OneDayReach(x.saleDate, terms.weekend);
    TwoDayReach(x.saleDate, terms.weekend);
    SettlementDateIs(x.saleDate, 0, terms.weekend);
    SameDay(x.saleDate, terms.weekend);
  }

  lemma SameDay(d: int, weekend: set<int>)
    ensures SettlementDate(d, 0, weekend) == d
  {
  }

  lemma TermsWork(terms: Terms)
    requires ValidTerms(terms)
    ensures terms.settlementDays > 0 ==> Working(terms.weekend)
    ensures WaitDays(terms) == if terms.settlementDays > 0 then terms.settlementDays else 0
  {
  }

  lemma TxnIs(tenant: int, merchant: int, terms: Terms, date: int, amount: nat, x: Txn)
    requires terms.Valid()
    requires x == Txn(tenant, merchant, amount, CalcFees(amount, terms), date, ExpectedDate(terms, date), None)
    ensures x == NewTxn(tenant, merchant, terms, date, amount)
  {
  }

  /** Between one selected row and the next there is nothing to add. */
  lemma {:induction false} SumSkips(txns: seq<Txn>, f: Field, g: Group, a: nat, b: nat, ids: seq<nat>, p: nat)
    requires Picked(txns, |txns|, g, ids) && a <= b <= |txns| && p <= |ids|
    requires a == if p == 0 then 0 else ids[p - 1] + 1
    requires b == if p == |ids| then |txns| else ids[p]
    ensures SumOf(txns[..b], f, g) == SumOf(txns[..a], f, g)
  {
    hide SumOf, In;
    var gap := txns[a..b];
    assert txns[..b] == txns[..a] + gap;
    forall q | 0 <= q < |ids| ensures !(a <= ids[q] < b) {
      assert q < p ==> ids[q] <= ids[p - 1];
      assert q >= p ==> ids[p] <= ids[q];
    }
    assert forall k | a <= k < b :: k !in ids;
    SumConcat(txns[..a], gap, f, g);
    SumNone(gap, f, g);
  }

  lemma NoRows(txns: seq<Txn>, f: Field, g: Group)
    ensures SumOf(txns[..0], f, g) == 0
  {
  }

  lemma SumNext(txns: seq<Txn>, f: Field, g: Group, done: nat, ids: seq<nat>, p: nat)
    requires Picked(txns, |txns|, g, ids) && p < |ids|
    requires done == (if p == 0 then 0 else ids[p - 1] + 1) <= |txns|
    ensures ids[p] < |txns|
    ensures SumOf(txns[..ids[p] + 1], f, g) == SumOf(txns[..done], f, g) + Measure(txns[ids[p]], f)
  {
    hide SumOf, In;
    assert p > 0 ==> ids[p - 1] < ids[p];
    SumSkips(txns, f, g, done, ids[p], ids, p);
    SumStep(txns[..ids[p] + 1], f, g);
    assert txns[..ids[p] + 1][..ids[p]] == txns[..ids[p]];
  }

  lemma {:induction false} PickedCount(txns: seq<Txn>, g: Group, ids: seq<nat>)
    requires Picked(txns, |txns|, g, ids)
    ensures SumOf(txns, Count, g) == |ids|
    decreases |txns|
  {
    if txns == [] {
      assert |ids| == 0;
    } else {
      var n := |txns| - 1;
      hide SumOf, In;
      SumStep(txns, Count, g);
      if In(txns[n], g) {
        var last := |ids| - 1;
        assert n in ids;
        assert ids[last] == n;
        PickedFront(txns, g, ids);
        PickedCount(txns[..n], g, ids[..last]);
      } else {
        assert forall p | 0 <= p < |ids| :: ids[p] < n;
        assert Picked(txns[..n], n, g, ids);
        PickedCount(txns[..n], g, ids);
      }
    }
  }

  lemma PickedFront(txns: seq<Txn>, g: Group, ids: seq<nat>)
    requires Picked(txns, |txns|, g, ids) && |ids| > 0 && ids[|ids| - 1] == |txns| - 1
    ensures Picked(txns[..|txns| - 1], |txns| - 1, g, ids[..|ids| - 1])
  {
    hide In;
    var n, front := |txns| - 1, ids[..|ids| - 1];
    assert ids == front + [n];
    assert forall k | 0 <= k < n && In(txns[..n][k], g) :: In(txns[k], g) && k in ids && k in front;
  }
}
