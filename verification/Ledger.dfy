/**
  The ledger on top of the store: prices and checks calls, and settles the
  storage of idle accounts in a periodic pass.
 */
module Ledgers {
  import opened Outcomes
  import opened Pricing
  import opened Tables
  import T = Transactions
  import opened Transactions
  import opened Runs
  import opened Stores

  datatype Report = Report(accounts: nat, microcredits: int)

  datatype Failure = InsufficientCredits | StoreFailed(error: Error) | Interrupted

  // What other transactions commit before the i-th settlement of a pass.
  type Interference = nat -> seq<Op>

  /** The database when the i-th settlement starts, `ids` being the accounts settled before it. */
  function Before(c: Config, db: Db, others: Interference, ids: seq<AccountId>, now: int): Db
    decreases |ids|, 1
  {
    Run(c, After(c, db, others, ids, now), others(|ids|))
  }

  /** The database after the accounts `ids` were settled, others committing in between. */
  function After(c: Config, db: Db, others: Interference, ids: seq<AccountId>, now: int): Db
    decreases |ids|, 0
  {
    if ids == [] then db else
    T.SettleStorage(Before(c, db, others, Init(ids), now), c.pricer, Last(ids), now).0
  }

  /** What a settlement takes from the balance of its account. */
  function TakenFrom(c: Config, db: Db, a: AccountId, now: int): int {
    if a in db.accounts
    then db.accounts[a].balance - T.SettleStorage(db, c.pricer, a, now).0.accounts[a].balance
    else 0
  }

  function Taken(c: Config, db: Db, others: Interference, ids: seq<AccountId>, now: int): int {
    if ids == [] then 0 else
    Taken(c, db, others, Init(ids), now) + TakenFrom(c, Before(c, db, others, Init(ids), now), Last(ids), now)
  }

  lemma OneMoreSettled(c: Config, db: Db, others: Interference, ids: seq<AccountId>, a: AccountId, now: int)
    ensures var before := Before(c, db, others, ids, now);
            && After(c, db, others, ids + [a], now) == T.SettleStorage(before, c.pricer, a, now).0
            && Taken(c, db, others, ids + [a], now) == Taken(c, db, others, ids, now) + TakenFrom(c, before, a, now)
  {
    Append(ids, a);
  }

  lemma TakenIsCost(c: Config, db: Db, a: AccountId, now: int)
    requires a in db.accounts
    ensures TakenFrom(c, db, a, now) == SettlementCost(db, c.pricer, a, now)
  {
  }

  predicate Distinct(ids: seq<AccountId>) {
    forall i, j :: 0 <= i < j < |ids| ==> ids[i] != ids[j]
  }

  class Ledger {
    const store: Store
    const prices: Prices
    const enforce: bool

    constructor (store: Store, prices: Prices, enforce: bool)
      ensures this.store == store && this.prices == prices && this.enforce == enforce
    {
      this.store, this.prices, this.enforce := store, prices, enforce;
    }

    /** Passes exactly when billing is off or the balance is positive. */
    method Precheck(a: AccountId) returns (r: Result<(), Failure>)
      ensures r.Ok? <==> !enforce || (a in store.accounts && 0 < store.accounts[a].balance)
      ensures r == Err(InsufficientCredits) <==> enforce && a in store.accounts && store.accounts[a].balance <= 0
    {
      if !enforce {
        return Ok(());
      }
      if a !in store.accounts {
        return Err(StoreFailed(NotFound));
      }
      if store.accounts[a].balance <= 0 {
        return Err(InsufficientCredits);
      }
      r := Ok(());
    }

    /** The balance falls by the price of the call, and so says the answer. */
    method Charge(a: AccountId, kind: CallKind, tokens: int) returns (r: Result<(int, int), Error>)
      modifies store
      ensures r.Ok? <==> a in old(store.accounts)
      ensures r.Err? ==> r == Err(NotFound) && store.View() == old(store.View())
      ensures r.Ok? ==>
                && RoundedUp(r.value.0, tokens, if kind == Embed then prices.embedPer1k else prices.rerankPer1k)
                && a in store.accounts && r.value.1 == store.accounts[a].balance
                && store.accounts[a].balance == old(store.accounts)[a].balance - r.value.0
      ensures var cost := Cost(prices, kind, tokens);
              var (after, booked) := T.Charge(old(store.View()), a, cost);
              && store.View() == after
              && r == match booked case Ok(balance) => Ok((cost, balance)) case Err(e) => Err(e)
    {
      var cost := Cost(prices, kind, tokens);
      var booked := store.Charge(a, cost);
      match booked
      case Ok(balance) => r := Ok((cost, balance));
      case Err(e) => r := Err(e);
    }

    /**
      One billing pass with one `now` for every account.  Before its i-th
      settlement the transactions `others(i)` commit.  A settlement of an account
      in `failing` ends in a database error; that error, or an account that is
      gone, ends the pass.  However it ends, the report is what the settlements
      took from the balances, and only due accounts were settled, once each.
     */
    method BillStorage(q: Quota, dbNow: int, now: int, failing: set<AccountId>, others: Interference)
        returns (rep: Report, err: Option<Failure>, ghost ids: seq<AccountId>)
      modifies store
      ensures var c, start := Config(q, PricerOf(prices)), old(store.View());
              && rep == Report(|ids|, Taken(c, start, others, ids, now))
              && store.View() == if err.None? then After(c, start, others, ids, now)
                                 else Before(c, start, others, ids, now)
      ensures Distinct(ids) && forall a :: a in ids ==> Due(old(store.View()), a, dbNow, DAY)
      ensures err.None? ==> forall a :: Due(old(store.View()), a, dbNow, DAY) ==> a in ids
      ensures err.Some? ==>
                exists a :: Due(old(store.View()), a, dbNow, DAY) && (a in failing || a !in store.accounts)
    {
      rep, err, ids := Report(0, 0), None, [];
      var due := store.StorageBillingDue(dbNow, DAY);
      var c := Config(q, PricerOf(prices));
      ghost var start := store.View();
      for i := 0 to |due|
        invariant ids == due[..i] && rep == Report(i, Taken(c, start, others, ids, now))
        invariant store.View() == After(c, start, others, ids, now)
      {
        store.Restore(Run(c, store.View(), others(i)));
        var a := due[i];
        assert a in due && Due(start, a, dbNow, DAY);
        if a in failing {
          return rep, Some(Interrupted), ids;
        }
        OneMoreSettled(c, start, others, ids, a, now);
        ghost var db := store.View();
        var settled := store.SettleStorage(a, c.pricer, now);
        if settled.Err? {
          return rep, Some(StoreFailed(settled.error)), ids;
        }
        TakenIsCost(c, db, a, now);
        ids := ids + [a];
        rep := Report(rep.accounts + 1, rep.microcredits + settled.value);
      }
    }
  }

  // ---- a pass nothing interferes with ----

  /** The account `a` once the bytes it stored are paid up to `now`. */
  function Paid(db: Db, p: Pricer, a: AccountId, now: int): Account
    requires a in db.accounts
  {
    var account := db.accounts[a];
    Account(account.balance - SettlementCost(db, p, a, now), account.lastVersion, Some(now))
  }

  /**
    From `start` to `end` nothing but storage charges happened: each was booked,
    each was taken from the balance of its account, and they sum to `reported`.
   */
  ghost predicate PassEffect(start: Db, end: Db, reported: int) {
    && end.rows == start.rows && end.accounts.Keys == start.accounts.Keys
    && start.usage <= end.usage
    && var booked := end.usage[|start.usage|..];
       && reported == SumCost(booked)
       && (forall e :: e in booked ==> e.kind == StorageUse && 0 < e.cost && e.account in start.accounts)
       && forall a :: a in start.accounts ==> end.accounts[a].balance == start.accounts[a].balance - Spent(booked, a)
  }

  function SumCost(usage: seq<UsageEvent>): int {
    if usage == [] then 0 else SumCost(Init(usage)) + Last(usage).cost
  }

  /** Since `start` exactly the accounts `ids` were paid, each the price of the bytes it stored. */
  ghost predicate PaidUpTo(start: Db, db: Db, p: Pricer, ids: seq<AccountId>, now: int) {
    && db.rows == start.rows && db.accounts.Keys == start.accounts.Keys
    && forall a :: a in start.accounts ==>
         db.accounts[a] == if a in ids then Paid(start, p, a, now) else start.accounts[a]
  }

  lemma PaidStep(start: Db, db: Db, p: Pricer, ids: seq<AccountId>, a: AccountId, now: int)
    requires PaidUpTo(start, db, p, ids, now) && a in start.accounts && a !in ids
    ensures PaidUpTo(start, Settled(db, p, a, now), p, ids + [a], now)
  {
    assert SettlementCost(db, p, a, now) == SettlementCost(start, p, a, now);
    assert Settled(db, p, a, now).accounts[a] == Paid(start, p, a, now);
  }

  lemma OneMoreEvent(booked: seq<UsageEvent>, e: UsageEvent, x: AccountId)
    ensures Spent(booked + [e], x) == Spent(booked, x) + if x == e.account then e.cost else 0
    ensures SumCost(booked + [e]) == SumCost(booked) + e.cost
  {
    Append(booked, e);
  }

  lemma PassBooks(start: Db, db: Db, reported: int, a: AccountId, cost: int)
    requires PassEffect(start, db, reported) && a in db.accounts && 0 < cost
    ensures PassEffect(start, Booked(db, a, StorageUse, cost), reported + cost)
  {
    hide Spent, SumCost;
    var e := UsageEvent(a, StorageUse, cost);
    var booked := db.usage[|start.usage|..];
    assert Booked(db, a, StorageUse, cost).usage[|start.usage|..] == booked + [e];
    OneMoreEvent(booked, e, a);
    forall x
      ensures Spent(booked + [e], x) == Spent(booked, x) + if x == a then cost else 0
    {
      OneMoreEvent(booked, e, x);
    }
  }

  lemma PassMarks(start: Db, db: Db, reported: int, a: AccountId, now: int)
    requires PassEffect(start, db, reported) && a in db.accounts
    ensures PassEffect(start, db.(accounts := db.accounts[a := db.accounts[a].(mark := Some(now))]), reported)
  {
  }

  lemma PassStep(start: Db, db: Db, reported: int, p: Pricer, a: AccountId, now: int)
    requires PassEffect(start, db, reported) && a in db.accounts
    ensures PassEffect(start, Settled(db, p, a, now), reported + SettlementCost(db, p, a, now))
  {
    var cost := SettlementCost(db, p, a, now);
    if 0 < cost {
      PassBooks(start, db, reported, a, cost);
    }
    PassMarks(start, if 0 < cost then Booked(db, a, StorageUse, cost) else db, reported + cost, a, now);
  }

  /**
    When nothing else commits during a pass, its report is the sum of the storage
    events it booked, these are all that changed the balances, and exactly the
    settled accounts are paid up to `now`.
   */
  lemma {:induction false} QuietPass(c: Config, db: Db, others: Interference, ids: seq<AccountId>, now: int)
    requires Distinct(ids) && (forall a :: a in ids ==> a in db.accounts) && forall i: nat :: others(i) == []
    ensures PassEffect(db, After(c, db, others, ids, now), Taken(c, db, others, ids, now))
    ensures PaidUpTo(db, After(c, db, others, ids, now), c.pricer, ids, now)
    decreases |ids|
  {
    if ids == [] {
      assert db.usage[|db.usage|..] == [];
    } else {
      var init, a := Init(ids), Last(ids);
      var before := After(c, db, others, init, now);
      assert ids[|init|] == a && Distinct(init);
      QuietPass(c, db, others, init, now);
      QuietTurn(c, db, others, init, now);
      TakenIsCost(c, before, a, now);
      PassStep(db, before, Taken(c, db, others, init, now), c.pricer, a, now);
      PaidStep(db, before, c.pricer, init, a, now);
    }
  }

  /** After a complete quiet pass nobody is due, as long as its time is less than a day behind the database's. */
  lemma NobodyLeft(
      c: Config, db: Db, others: Interference, ids: seq<AccountId>, dbNow: int, now: int, a: AccountId)
    requires Distinct(ids) && (forall a :: a in ids ==> a in db.accounts) && forall i: nat :: others(i) == []
    requires forall a :: Due(db, a, dbNow, DAY) ==> a in ids
    ensures Due(After(c, db, others, ids, now), a, dbNow, DAY) <==> a in ids && now + DAY < dbNow
  {
    QuietPass(c, db, others, ids, now);
  }

  lemma QuietTurn(c: Config, db: Db, others: Interference, ids: seq<AccountId>, now: int)
    requires others(|ids|) == []
    ensures Before(c, db, others, ids, now) == After(c, db, others, ids, now)
  {
  }
}
