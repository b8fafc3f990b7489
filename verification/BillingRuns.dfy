/**
  Money over runs of the store: the ledger balances, and the storage bill of an
  account is the rounded integral of its stored bytes over time.
 */
module BillingRuns {
  import opened Outcomes
  import opened Pricing
  import opened Tables
  import opened Transactions
  import opened Runs
  import opened Sums

  // ---- conservation ----

  /** The credits that reached account `a` during a run. */
  function Credits(c: Config, db: Db, ops: seq<Op>, a: AccountId): int
    decreases |ops|
  {
    if ops == [] then 0 else
    TopUpOf(db, ops[0], a) + Credits(c, Apply(c, db, ops[0]), ops[1..], a)
  }

  function TopUpOf(db: Db, op: Op, a: AccountId): int {
    if op.TopUp? && op.a == a && a in db.accounts then op.amount else 0
  }

  /** Balance plus everything booked: what an account was ever given. */
  function Net(db: Db, a: AccountId): int
    requires a in db.accounts
  {
    db.accounts[a].balance + Spent(db.usage, a)
  }

  lemma BookedNet(db: Db, who: AccountId, kind: EventKind, cost: int, a: AccountId)
    requires who in db.accounts && a in db.accounts
    ensures Net(Booked(db, who, kind, cost), a) == Net(db, a)
  {
    Append(db.usage, UsageEvent(who, kind, cost));
  }

  lemma SettledNet(db: Db, p: Pricer, who: AccountId, now: int, a: AccountId)
    requires who in db.accounts && a in db.accounts
    ensures Net(Settled(db, p, who, now), a) == Net(db, a)
  {
    BookedNet(db, who, StorageUse, SettlementCost(db, p, who, now), a);
  }

  predicate Timed(op: Op) {
    op.Upload? || op.Remove? || op.Prune? || op.Settle?
  }

  /** The time at which `op` commits a settlement of `a`, if it does. */
  function SettlesAt(c: Config, db: Db, op: Op, a: AccountId): Option<int> {
    match op
    case Upload(who, now, nb, x) =>
      if who == a && CreateBackup(db, c.quota, c.pricer, a, now, nb, x).1.Ok? then Some(now) else None
    case Remove(who, id, now) =>
      if who == a && DeleteBackup(db, c.pricer, a, id, now).1.Ok? then Some(now) else None
    case Prune(who, before, now) =>
      if who == a && PruneBackups(db, c.pricer, a, before, now).1.Ok? then Some(now) else None
    case Settle(who, now) =>
      if who == a && a in db.accounts then Some(now) else None
    case _ => None
  }

  /** A transaction that carries a time either commits nothing or leaves the ledger as settling alone would. */
  lemma TimedEffect(c: Config, db: Db, op: Op)
    requires Timed(op)
    ensures var next := Apply(c, db, op);
            match SettlesAt(c, db, op, op.a)
            case None => next == db
            case Some(now) =>
              && now == op.now && op.a in db.accounts
              && next.usage == Settled(db, c.pricer, op.a, now).usage
              && next.accounts.Keys == db.accounts.Keys
              && forall x :: x in db.accounts ==>
                   && next.accounts[x].balance == Settled(db, c.pricer, op.a, now).accounts[x].balance
                   && next.accounts[x].mark == Settled(db, c.pricer, op.a, now).accounts[x].mark
  {
  }

  lemma TimedNet(c: Config, db: Db, op: Op, a: AccountId)
    requires Timed(op) && a in db.accounts
    ensures a in Apply(c, db, op).accounts && Net(Apply(c, db, op), a) == Net(db, a)
  {
    TimedEffect(c, db, op);
    if SettlesAt(c, db, op, op.a).Some? {
      SettledNet(db, c.pricer, op.a, op.now, a);
    }
  }

  lemma OthersBytes(rows: seq<Backup>, clause: Clause, a: AccountId)
    requires clause.account != a
    ensures Used(Kept(rows, clause), a) == Used(rows, a)
  {
    hide Used, Kept, Picked, Lookup, LookupVersion;
    KeptAggregates(rows, clause, a);
    ForeignRows(Picked(rows, clause), a);
  }

  lemma CloseEffect(db: Db, who: AccountId, a: AccountId)
    requires a in db.accounts && a in DeleteAccount(db, who, []).0.accounts
    ensures var next := DeleteAccount(db, who, []).0;
            && next.accounts[a] == db.accounts[a] && Used(next.rows, a) == Used(db.rows, a)
            && Spent(next.usage, a) == Spent(db.usage, a) && StorageBill(next.usage, a) == StorageBill(db.usage, a)
  {
    hide Used, Kept, Picked, Lookup, LookupVersion;
    if DeleteAccount(db, who, []).1.Ok? {
      assert who != a;
      WithoutAccountSums(db.usage, who, a);
      OthersBytes(db.rows, OfAccount(who), a);
    }
  }

  lemma ApplyNet(c: Config, db: Db, op: Op, a: AccountId)
    requires Inv(c, db) && a in db.accounts && a in Apply(c, db, op).accounts
    ensures Net(Apply(c, db, op), a) == Net(db, a) + TopUpOf(db, op, a)
  {
    if Timed(op) {
      TimedNet(c, db, op, a);
    } else if op.Infer? && op.a in db.accounts {
      BookedNet(db, op.a, InferenceUse, op.cost, a);
    } else if op.CloseAccount? {
      CloseEffect(db, op.a, a);
    }
  }

  lemma OpenedNet(c: Config, db: Db, op: Op, a: AccountId)
    requires Inv(c, db) && a !in db.accounts && a in Apply(c, db, op).accounts
    ensures Net(Apply(c, db, op), a) == 0 && TopUpOf(db, op, a) == 0
  {
    if Timed(op) {
      TimedEffect(c, db, op);
    }
    ForeignSums(db.usage, a);
  }

  lemma {:induction false} GoneForGood(c: Config, db: Db, ops: seq<Op>, a: AccountId)
    requires a !in db.accounts && a in db.accountIds
    ensures a !in Run(c, db, ops).accounts
    decreases |ops|
  {
    if ops != [] {
      GoneForGood(c, Apply(c, db, ops[0]), ops[1..], a);
    }
  }

  lemma AccountIdsGrow(c: Config, db: Db, op: Op)
    ensures db.accountIds <= Apply(c, db, op).accountIds
    ensures op.TopUp? ==> Apply(c, db, op).accounts.Keys == db.accounts.Keys
  {
  }

  /** An account that is gone after the first transaction of a run and there at its end was not there at the start. */
  lemma NeverBack(c: Config, db: Db, ops: seq<Op>, a: AccountId)
    requires Inv(c, db) && ops != [] && a in Run(c, db, ops).accounts && a !in Apply(c, db, ops[0]).accounts
    ensures a !in db.accounts && TopUpOf(db, ops[0], a) == 0
  {
    AccountIdsGrow(c, db, ops[0]);
    if a in db.accounts {
      GoneForGood(c, Apply(c, db, ops[0]), ops[1..], a);
    }
  }

  lemma {:induction false} NetOverRun(c: Config, db: Db, ops: seq<Op>, a: AccountId)
    requires Inv(c, db) && a in Run(c, db, ops).accounts
    ensures Net(Run(c, db, ops), a) == (if a in db.accounts then Net(db, a) else 0) + Credits(c, db, ops, a)
    decreases |ops|
  {
    if ops != [] {
      var next := Apply(c, db, ops[0]);
      ApplyKeepsInv(c, db, ops[0]);
      NetOverRun(c, next, ops[1..], a);
      if a !in next.accounts {
        NeverBack(c, db, ops, a);
      } else if a in db.accounts {
        ApplyNet(c, db, ops[0], a);
      } else {
        OpenedNet(c, db, ops[0], a);
      }
    }
  }

  /** In every reachable state the balance of a live account is its credits minus what was booked on it. */
  lemma LedgerConserved(c: Config, ops: seq<Op>, a: AccountId)
    requires a in Run(c, EMPTY, ops).accounts
    ensures var db := Run(c, EMPTY, ops);
            db.accounts[a].balance == Credits(c, EMPTY, ops, a) - Spent(db.usage, a)
  {
    NetOverRun(c, EMPTY, ops, a);
  }

  /** What the model calls of account `a` during a run cost. */
  function CallCosts(c: Config, db: Db, ops: seq<Op>, a: AccountId): int
    decreases |ops|
  {
    if ops == [] then 0 else
    CallCost(db, ops[0], a) + CallCosts(c, Apply(c, db, ops[0]), ops[1..], a)
  }

  function CallCost(db: Db, op: Op, a: AccountId): int {
    if op.Infer? && op.a == a && a in db.accounts then op.cost else 0
  }

  /** What was booked on an account for other things than storage. */
  function BookedCalls(db: Db, a: AccountId): int {
    Spent(db.usage, a) - StorageBill(db.usage, a)
  }

  lemma ApplyCalls(c: Config, db: Db, op: Op, a: AccountId)
    requires Inv(c, db) && a in db.accounts && a in Apply(c, db, op).accounts
    ensures BookedCalls(Apply(c, db, op), a) == BookedCalls(db, a) + CallCost(db, op, a)
  {
    if Timed(op) {
      TimedEffect(c, db, op);
      if SettlesAt(c, db, op, op.a).Some? {
        Append(db.usage, UsageEvent(op.a, StorageUse, SettlementCost(db, c.pricer, op.a, op.now)));
      }
    } else if op.Infer? {
      Append(db.usage, UsageEvent(op.a, InferenceUse, op.cost));
    } else if op.CloseAccount? {
      CloseEffect(db, op.a, a);
    }
  }

  lemma OpenedCalls(c: Config, db: Db, op: Op, a: AccountId)
    requires Inv(c, db) && a !in db.accounts && a in Apply(c, db, op).accounts
    ensures BookedCalls(Apply(c, db, op), a) == 0 && CallCost(db, op, a) == 0
  {
    if Timed(op) {
      TimedEffect(c, db, op);
    }
    ForeignSums(db.usage, a);
  }

  lemma NeverBackCalls(c: Config, db: Db, ops: seq<Op>, a: AccountId)
    requires Inv(c, db) && ops != [] && a in Run(c, db, ops).accounts && a !in Apply(c, db, ops[0]).accounts
    ensures a !in db.accounts && CallCost(db, ops[0], a) == 0
  {
    NeverBack(c, db, ops, a);
  }

  lemma {:induction false} CallsOverRun(c: Config, db: Db, ops: seq<Op>, a: AccountId)
    requires Inv(c, db) && a in Run(c, db, ops).accounts
    ensures BookedCalls(Run(c, db, ops), a)
         == (if a in db.accounts then BookedCalls(db, a) else 0) + CallCosts(c, db, ops, a)
    decreases |ops|
  {
    if ops != [] {
      var next := Apply(c, db, ops[0]);
      ApplyKeepsInv(c, db, ops[0]);
      CallsOverRun(c, next, ops[1..], a);
      if a !in next.accounts {
        NeverBackCalls(c, db, ops, a);
      } else if a in db.accounts {
        ApplyCalls(c, db, ops[0], a);
      } else {
        OpenedCalls(c, db, ops[0], a);
      }
    }
  }

  /** Every microcredit is accounted for: the balance is the credits minus the calls minus the storage bill. */
  lemma BalanceExplained(c: Config, ops: seq<Op>, a: AccountId)
    requires a in Run(c, EMPTY, ops).accounts
    ensures var db := Run(c, EMPTY, ops);
            db.accounts[a].balance
            == Credits(c, EMPTY, ops, a) - CallCosts(c, EMPTY, ops, a) - StorageBill(db.usage, a)
  {
    LedgerConserved(c, ops, a);
    CallsOverRun(c, EMPTY, ops, a);
  }

  // ---- settlements ----

  lemma SettledBill(db: Db, p: Pricer, who: AccountId, now: int, a: AccountId)
    requires who in db.accounts && a in db.accounts
    ensures StorageBill(Settled(db, p, who, now).usage, a)
         == StorageBill(db.usage, a) + if who == a then SettlementCost(db, p, a, now) else 0
    ensures Settled(db, p, who, now).accounts[a].mark == if who == a then Some(now) else db.accounts[a].mark
  {
    Append(db.usage, UsageEvent(who, StorageUse, SettlementCost(db, p, who, now)));
  }

  lemma TimedBill(c: Config, db: Db, op: Op, a: AccountId)
    requires Timed(op) && a in db.accounts
    ensures var next := Apply(c, db, op);
            a in next.accounts &&
            match SettlesAt(c, db, op, a)
            case Some(now) =>
              && next.accounts[a].mark == Some(now)
              && StorageBill(next.usage, a) == StorageBill(db.usage, a) + SettlementCost(db, c.pricer, a, now)
            case None =>
              && next.accounts[a].mark == db.accounts[a].mark
              && StorageBill(next.usage, a) == StorageBill(db.usage, a)
  {
    TimedEffect(c, db, op);
    if SettlesAt(c, db, op, op.a).Some? {
      SettledBill(db, c.pricer, op.a, op.now, a);
    }
  }

  lemma UploadBytes(c: Config, db: Db, who: AccountId, now: int, nb: NewBackup, x: Outside, a: AccountId)
    requires who != a
    ensures Used(CreateBackup(db, c.quota, c.pricer, who, now, nb, x).0.rows, a) == Used(db.rows, a)
  {
    hide Used, Check, LookupVersion;
    if who in db.accounts {
      AppendSums(db.rows, NewRow(db, who, nb, x.id), a);
    }
  }

  lemma RemoveBytes(c: Config, db: Db, who: AccountId, id: BackupId, now: int, a: AccountId)
    requires who != a
    ensures Used(DeleteBackup(db, c.pricer, who, id, now).0.rows, a) == Used(db.rows, a)
  {
    hide Used, Kept, Picked, Lookup, LookupVersion;
    OthersBytes(db.rows, HasId(who, id), a);
  }

  lemma PruneBytes(c: Config, db: Db, who: AccountId, before: int, now: int, a: AccountId)
    requires who != a
    ensures Used(PruneBackups(db, c.pricer, who, before, now).0.rows, a) == Used(db.rows, a)
  {
    hide Used, Kept, Picked, Lookup, LookupVersion;
    OthersBytes(db.rows, Below(who, before), a);
  }

  /** A transaction that does not settle `a` does not touch its bytes. */
  lemma TimedBytes(c: Config, db: Db, op: Op, a: AccountId)
    requires Timed(op) && SettlesAt(c, db, op, a).None?
    ensures Used(Apply(c, db, op).rows, a) == Used(db.rows, a)
  {
    if op.a == a {
      TimedEffect(c, db, op);
    } else {
      match op
      case Upload(who, now, nb, x) => UploadBytes(c, db, who, now, nb, x, a);
      case Remove(who, id, now) => RemoveBytes(c, db, who, id, now, a);
      case Prune(who, before, now) => PruneBytes(c, db, who, before, now, a);
      case Settle(_, _) =>
    }
  }

  /**
    One transaction and the storage of `a`: either it settles `a`, and then it
    bills the old bytes for the time since the mark and moves the mark; or the
    mark, the bill and the bytes stay as they are.
   */
  lemma ApplyBill(c: Config, db: Db, op: Op, a: AccountId)
    requires Inv(c, db) && a in db.accounts && a in Apply(c, db, op).accounts
    ensures var next := Apply(c, db, op);
            match SettlesAt(c, db, op, a)
            case Some(now) =>
              && next.accounts[a].mark == Some(now)
              && StorageBill(next.usage, a) == StorageBill(db.usage, a) + SettlementCost(db, c.pricer, a, now)
            case None =>
              && next.accounts[a].mark == db.accounts[a].mark
              && StorageBill(next.usage, a) == StorageBill(db.usage, a)
              && Used(next.rows, a) == Used(db.rows, a)
  {
    if Timed(op) {
      TimedBill(c, db, op, a);
      if SettlesAt(c, db, op, a).None? {
        TimedBytes(c, db, op, a);
      }
    } else if op.Infer? {
      Append(db.usage, UsageEvent(op.a, InferenceUse, op.cost));
    } else if op.CloseAccount? {
      CloseEffect(db, op.a, a);
    }
  }

  // ---- the bill is an integral ----

  /** A settlement at `now` bills the instant `t`: it lies between the mark and that time. */
  predicate Bills(db: Db, a: AccountId, now: Option<int>, t: int) {
    a in db.accounts && db.accounts[a].mark.Some? && now.Some? && db.accounts[a].mark.value <= t < now.value
  }

  /** The bytes above the free quota for which the instant `t` is billed, summed over all settlements that bill it. */
  function WeightAt(c: Config, p: Prices, db: Db, ops: seq<Op>, a: AccountId, t: int): nat
    decreases |ops|
  {
    if ops == [] then 0 else
    (if Bills(db, a, SettlesAt(c, db, ops[0], a), t) then Over(p, Used(db.rows, a)) else 0)
    + WeightAt(c, p, Apply(c, db, ops[0]), ops[1..], a, t)
  }

  /** The sum of these weights over every nanosecond from `start` to `end`. */
  function BilledArea(c: Config, p: Prices, db: Db, ops: seq<Op>, a: AccountId, start: int, end: int): nat {
    SumOver(t => WeightAt(c, p, db, ops, a, t), start, end)
  }

  /** All marks the account gets during the run lie between `start` and `end`. */
  predicate MarksWithin(c: Config, db: Db, ops: seq<Op>, a: AccountId, start: int, end: int)
    decreases |ops|
  {
    && (a in db.accounts && db.accounts[a].mark.Some? ==> start <= db.accounts[a].mark.value <= end)
    && (ops == [] || MarksWithin(c, Apply(c, db, ops[0]), ops[1..], a, start, end))
  }

  /** The number of settlements of `a` that charge anything. */
  function Charges(c: Config, db: Db, ops: seq<Op>, a: AccountId): nat
    decreases |ops|
  {
    if ops == [] then 0 else
    var now := SettlesAt(c, db, ops[0], a);
    (if a in db.accounts && now.Some? && 0 < SettlementCost(db, c.pricer, a, now.value) then 1 else 0)
    + Charges(c, Apply(c, db, ops[0]), ops[1..], a)
  }

  /**
    The bill grew by at least the exact price of the `area` under the billed
    bytes, and by less than one microcredit more for each of the `charges`
    settlements that charged anything.
   */
  predicate Bracketed(p: Prices, growth: int, area: nat, charges: nat) {
    area * p.storagePerGBMonth <= growth * SCALE <= area * p.storagePerGBMonth + charges * (SCALE - 1)
  }

  function Growth(c: Config, db: Db, ops: seq<Op>, a: AccountId): int {
    StorageBill(Run(c, db, ops).usage, a) - StorageBill(db.usage, a)
  }

  /** Adding one settlement over the time `d` keeps a bill bracketed. */
  lemma BracketStep(p: Prices, bytes: int, d: int, cost: nat, growth: int, area: nat, charges: nat,
                    growth': int, area': nat, charges': nat)
    requires Bracketed(p, growth, area, charges) && cost == StorageCost(p, bytes, d)
    requires growth' == cost + growth && area' == (if 0 < d then Over(p, bytes) * d else 0) + area
    requires charges' == (if 0 < cost then 1 else 0) + charges
    ensures Bracketed(p, growth', area', charges')
  {
    var over, rate := Over(p, bytes), p.storagePerGBMonth;
    if 0 < d {
      assert (over * d + area) * rate == over * d * rate + area * rate;
      assert Exact(p, bytes, d) == over * d * rate;
    }
  }

  /** The time the first transaction of a run settles `a` for; 0 if it settles nothing. */
  function Elapsed(c: Config, db: Db, ops: seq<Op>, a: AccountId): int
    requires ops != [] && a in db.accounts
  {
    match (db.accounts[a].mark, SettlesAt(c, db, ops[0], a))
    case (Some(mark), Some(now)) => now - mark
    case (_, _) => 0
  }

  function CostOf(c: Config, db: Db, ops: seq<Op>, a: AccountId): nat
    requires ops != [] && a in db.accounts
  {
    match SettlesAt(c, db, ops[0], a)
    case Some(now) => SettlementCost(db, c.pricer, a, now)
    case None => 0
  }

  /** The bill, the area and the charges of a run, from those of the run without its first transaction. */
  ghost predicate Stepped(c: Config, p: Prices, db: Db, ops: seq<Op>, a: AccountId, start: int, end: int)
    requires ops != [] && a in db.accounts
  {
    var next, rest, d := Apply(c, db, ops[0]), ops[1..], Elapsed(c, db, ops, a);
    && CostOf(c, db, ops, a) == StorageCost(p, Used(db.rows, a), d)
    && Growth(c, db, ops, a) == CostOf(c, db, ops, a) + Growth(c, next, rest, a)
    && Charges(c, db, ops, a) == (if 0 < CostOf(c, db, ops, a) then 1 else 0) + Charges(c, next, rest, a)
    && BilledArea(c, p, db, ops, a, start, end)
       == (if 0 < d then Over(p, Used(db.rows, a)) * d else 0) + BilledArea(c, p, next, rest, a, start, end)
  }

  /** The first settlement adds a block of constant bytes, from the mark to its time, to the area of the rest. */
  lemma AreaStep(c: Config, p: Prices, db: Db, ops: seq<Op>, a: AccountId, start: int, end: int)
    requires ops != [] && a in db.accounts && start <= end
    requires MarksWithin(c, db, ops, a, start, end)
    requires SettlesAt(c, db, ops[0], a).Some? ==> start <= SettlesAt(c, db, ops[0], a).value <= end
    ensures var d := Elapsed(c, db, ops, a);
            BilledArea(c, p, db, ops, a, start, end)
            == (if 0 < d then Over(p, Used(db.rows, a)) * d else 0)
               + BilledArea(c, p, Apply(c, db, ops[0]), ops[1..], a, start, end)
  {
    var over, settled := Over(p, Used(db.rows, a)), SettlesAt(c, db, ops[0], a);
    var until := if settled.Some? then settled.value else start;
    var from := if db.accounts[a].mark.Some? then db.accounts[a].mark.value else until;
    var block: int -> nat := t => if from <= t < until then over else 0;
    SumOfBlock(block, over, from, until, start, end);
    SumsAdd(block, t => WeightAt(c, p, Apply(c, db, ops[0]), ops[1..], a, t),
            t => WeightAt(c, p, db, ops, a, t), start, end);
  }

  lemma GrowthStep(c: Config, db: Db, ops: seq<Op>, a: AccountId)
    requires Inv(c, db) && a in db.accounts && ops != [] && a in Apply(c, db, ops[0]).accounts
    ensures var next, now, cost := Apply(c, db, ops[0]), SettlesAt(c, db, ops[0], a), CostOf(c, db, ops, a);
            && Growth(c, db, ops, a) == cost + Growth(c, next, ops[1..], a)
            && Charges(c, db, ops, a) == (if 0 < cost then 1 else 0) + Charges(c, next, ops[1..], a)
            && next.accounts[a].mark == if now.Some? then now else db.accounts[a].mark
  {
    ApplyBill(c, db, ops[0], a);
  }

  lemma StepTaken(c: Config, p: Prices, db: Db, ops: seq<Op>, a: AccountId, start: int, end: int)
    requires c.pricer == PricerOf(p) && Inv(c, db) && ops != [] && start <= end
    requires a in db.accounts && a in Apply(c, db, ops[0]).accounts && MarksWithin(c, db, ops, a, start, end)
    ensures Stepped(c, p, db, ops, a, start, end)
  {
    GrowthStep(c, db, ops, a);
    assert MarksWithin(c, Apply(c, db, ops[0]), ops[1..], a, start, end);
    AreaStep(c, p, db, ops, a, start, end);
    CostIsPrice(c, p, db, ops, a);
  }

  lemma CostIsPrice(c: Config, p: Prices, db: Db, ops: seq<Op>, a: AccountId)
    requires c.pricer == PricerOf(p) && ops != [] && a in db.accounts
    ensures CostOf(c, db, ops, a) == StorageCost(p, Used(db.rows, a), Elapsed(c, db, ops, a))
  {
  }

  /** One transaction more in front of a run whose bill is bracketed. */
  lemma BracketRun(c: Config, p: Prices, db: Db, ops: seq<Op>, a: AccountId, start: int, end: int)
    requires c.pricer == PricerOf(p) && ops != [] && a in db.accounts && start <= end
    requires Stepped(c, p, db, ops, a, start, end)
    requires var next, rest := Apply(c, db, ops[0]), ops[1..];
             Bracketed(p, Growth(c, next, rest, a),
                       BilledArea(c, p, next, rest, a, start, end), Charges(c, next, rest, a))
    ensures Bracketed(p, Growth(c, db, ops, a), BilledArea(c, p, db, ops, a, start, end), Charges(c, db, ops, a))
  {
    var next, rest := Apply(c, db, ops[0]), ops[1..];
    BracketStep(p, Used(db.rows, a), Elapsed(c, db, ops, a), CostOf(c, db, ops, a),
                Growth(c, next, rest, a), BilledArea(c, p, next, rest, a, start, end), Charges(c, next, rest, a),
                Growth(c, db, ops, a), BilledArea(c, p, db, ops, a, start, end), Charges(c, db, ops, a));
  }

  lemma NothingBilled(c: Config, p: Prices, db: Db, a: AccountId, start: int, end: int)
    ensures Bracketed(p, Growth(c, db, [], a), BilledArea(c, p, db, [], a, start, end), Charges(c, db, [], a))
  {
    SumOfBlock(t => WeightAt(c, p, db, [], a, t), 0, end, end, start, end);
  }

  /**
    Whatever times the settlements carry, the storage bill of an account is the
    area under the bytes it was billed for, at every instant as often as that
    instant was billed, rounded up by less than one microcredit per charge.
   */
  lemma {:induction false} BillIsBilledArea(
      c: Config, p: Prices, db: Db, ops: seq<Op>, a: AccountId, start: int, end: int)
    requires c.pricer == PricerOf(p) && Inv(c, db)
    requires a in db.accounts && a in Run(c, db, ops).accounts && start <= end && MarksWithin(c, db, ops, a, start, end)
    ensures Bracketed(p, Growth(c, db, ops, a), BilledArea(c, p, db, ops, a, start, end), Charges(c, db, ops, a))
    decreases |ops|
  {
    if ops == [] {
      NothingBilled(c, p, db, a, start, end);
    } else {
      var next, rest := Apply(c, db, ops[0]), ops[1..];
      if a !in next.accounts {
        NeverBack(c, db, ops, a);
      }
      ApplyKeepsInv(c, db, ops[0]);
      StepTaken(c, p, db, ops, a, start, end);
      BillIsBilledArea(c, p, next, rest, a, start, end);
      BracketRun(c, p, db, ops, a, start, end);
    }
  }

  /**
    The bytes `a` stores at the instant `t`: those left by the last transaction
    that committed at `t` or before.
   */
  function BytesAt(c: Config, db: Db, ops: seq<Op>, a: AccountId, t: int): int
    decreases |ops|
  {
    if ops == [] then Used(db.rows, a) else
    match SettlesAt(c, db, ops[0], a)
    case Some(now) =>
      if t < now then Used(db.rows, a) else BytesAt(c, Apply(c, db, ops[0]), ops[1..], a, t)
    case None => BytesAt(c, Apply(c, db, ops[0]), ops[1..], a, t)
  }

  /** The sum, over every nanosecond from `start` to `end`, of the bytes stored above the free quota. */
  function Integral(c: Config, p: Prices, db: Db, ops: seq<Op>, a: AccountId, start: int, end: int): nat {
    SumOver(t => Over(p, BytesAt(c, db, ops, a, t)), start, end)
  }

  /** No settlement of `a` is dated before its mark. */
  predicate NeverBehind(c: Config, db: Db, ops: seq<Op>, a: AccountId)
    decreases |ops|
  {
    ops == [] ||
    (&& (a in db.accounts && db.accounts[a].mark.Some? && SettlesAt(c, db, ops[0], a).Some? ==>
           db.accounts[a].mark.value <= SettlesAt(c, db, ops[0], a).value)
     && NeverBehind(c, Apply(c, db, ops[0]), ops[1..], a))
  }

  /** The mark of an account at the end of a run. */
  function LastMark(c: Config, db: Db, ops: seq<Op>, a: AccountId): Option<int>
    requires a in Run(c, db, ops).accounts
  {
    Run(c, db, ops).accounts[a].mark
  }

  lemma {:induction false} MarksAscend(c: Config, db: Db, ops: seq<Op>, a: AccountId, start: int)
    requires Inv(c, db) && a in db.accounts && a in Run(c, db, ops).accounts
    requires db.accounts[a].mark.Some? && start <= db.accounts[a].mark.value && NeverBehind(c, db, ops, a)
    ensures LastMark(c, db, ops, a).Some? && db.accounts[a].mark.value <= LastMark(c, db, ops, a).value
    ensures MarksWithin(c, db, ops, a, start, LastMark(c, db, ops, a).value)
    decreases |ops|
  {
    if ops != [] {
      if a !in Apply(c, db, ops[0]).accounts {
        NeverBack(c, db, ops, a);
      }
      ApplyKeepsInv(c, db, ops[0]);
      GrowthStep(c, db, ops, a);
      MarksAscend(c, Apply(c, db, ops[0]), ops[1..], a, start);
    }
  }

  /** When no settlement is dated before its mark, every instant between the marks is billed for what is stored then. */
  lemma {:induction false} WeightIsBytes(c: Config, p: Prices, db: Db, ops: seq<Op>, a: AccountId, t: int)
    requires Inv(c, db) && a in db.accounts && a in Run(c, db, ops).accounts
    requires db.accounts[a].mark.Some? && NeverBehind(c, db, ops, a)
    ensures LastMark(c, db, ops, a).Some?
    ensures WeightAt(c, p, db, ops, a, t)
         == if db.accounts[a].mark.value <= t < LastMark(c, db, ops, a).value
            then Over(p, BytesAt(c, db, ops, a, t)) else 0
    decreases |ops|
  {
    MarksAscend(c, db, ops, a, db.accounts[a].mark.value);
    if ops != [] {
      if a !in Apply(c, db, ops[0]).accounts {
        NeverBack(c, db, ops, a);
      }
      ApplyKeepsInv(c, db, ops[0]);
      ApplyBill(c, db, ops[0], a);
      MarksAscend(c, Apply(c, db, ops[0]), ops[1..], a, Apply(c, db, ops[0]).accounts[a].mark.value);
      WeightIsBytes(c, p, Apply(c, db, ops[0]), ops[1..], a, t);
    }
  }

  /** The storage bill of an account between two marks brackets the integral of its bytes between them. */
  lemma BillIsIntegral(c: Config, p: Prices, db: Db, ops: seq<Op>, a: AccountId)
    requires c.pricer == PricerOf(p) && Inv(c, db)
    requires a in db.accounts && a in Run(c, db, ops).accounts
    requires db.accounts[a].mark.Some? && NeverBehind(c, db, ops, a)
    ensures LastMark(c, db, ops, a).Some? && db.accounts[a].mark.value <= LastMark(c, db, ops, a).value
    ensures Bracketed(p, Growth(c, db, ops, a),
                      Integral(c, p, db, ops, a, db.accounts[a].mark.value, LastMark(c, db, ops, a).value),
                      Charges(c, db, ops, a))
  {
    var first := db.accounts[a].mark.value;
    MarksAscend(c, db, ops, a, first);
    var last := LastMark(c, db, ops, a).value;
    BillIsBilledArea(c, p, db, ops, a, first, last);
    forall t | first <= t < last
      ensures WeightAt(c, p, db, ops, a, t) == Over(p, BytesAt(c, db, ops, a, t))
    {
      WeightIsBytes(c, p, db, ops, a, t);
    }
    SumsAgree(t => WeightAt(c, p, db, ops, a, t), t => Over(p, BytesAt(c, db, ops, a, t)), first, last);
  }

  /** Every stored row belongs to a marked account. */
  ghost predicate RowsMarked(db: Db) {
    forall b :: b in db.rows ==> b.account in db.accounts && db.accounts[b.account].mark.Some?
  }

  lemma UploadKeepsMarked(c: Config, db: Db, a: AccountId, now: int, nb: NewBackup, x: Outside)
    requires RowsMarked(db)
    ensures RowsMarked(CreateBackup(db, c.quota, c.pricer, a, now, nb, x).0)
  {
    if CreateBackup(db, c.quota, c.pricer, a, now, nb, x).1.Ok? {
      var b := NewRow(db, a, nb, x.id);
      var next := CreateBackup(db, c.quota, c.pricer, a, now, nb, x).0;
      assert next.rows == db.rows + [b];
      assert next.accounts[a].mark == Some(now);
    }
  }

  /** Losing rows, and keeping the marks there are, keeps what rows there are marked. */
  lemma FewerKeepMarked(db: Db, after: Db)
    requires RowsMarked(db)
    requires forall b :: b in after.rows ==> b in db.rows && b.account in after.accounts
    requires forall x ::
               x in after.accounts && x in db.accounts && db.accounts[x].mark.Some? ==> after.accounts[x].mark.Some?
    ensures RowsMarked(after)
  {
  }

  lemma TimedKeepsMarked(c: Config, db: Db, op: Op)
    requires RowsMarked(db) && Timed(op) && !op.Upload?
    ensures RowsMarked(Apply(c, db, op))
  {
    TimedEffect(c, db, op);
    FewerKeepMarked(db, Apply(c, db, op));
  }

  lemma BalanceKeepsMarked(db: Db, after: Db)
    requires RowsMarked(db) && after.rows == db.rows
    requires forall x :: x in db.accounts ==> x in after.accounts && after.accounts[x].mark == db.accounts[x].mark
    ensures RowsMarked(after)
  {
  }

  lemma ChargeKeepsMarked(db: Db, a: AccountId, cost: int)
    requires RowsMarked(db)
    ensures RowsMarked(Charge(db, a, cost).0)
  {
    BalanceKeepsMarked(db, Charge(db, a, cost).0);
  }

  lemma CloseKeepsMarked(db: Db, a: AccountId)
    requires RowsMarked(db)
    ensures RowsMarked(DeleteAccount(db, a, []).0)
  {
    FewerKeepMarked(db, DeleteAccount(db, a, []).0);
  }

  lemma AccountsKeepMarked(c: Config, db: Db, op: Op)
    requires RowsMarked(db) && !Timed(op) && forall a :: a in db.accounts ==> a in db.accountIds
    ensures RowsMarked(Apply(c, db, op))
  {
    match op
    case Infer(a, cost) => ChargeKeepsMarked(db, a, cost);
    case TopUp(a, amount) => BalanceKeepsMarked(db, AddCredits(db, a, amount).0);
    case OpenAccount(a) => BalanceKeepsMarked(db, CreateAccount(db, a).0);
    case CloseAccount(a) => CloseKeepsMarked(db, a);
  }

  lemma ApplyKeepsMarked(c: Config, db: Db, op: Op)
    requires Inv(c, db) && RowsMarked(db)
    ensures RowsMarked(Apply(c, db, op))
  {
    if op.Upload? {
      UploadKeepsMarked(c, db, op.a, op.now, op.nb, op.x);
    } else if Timed(op) {
      TimedKeepsMarked(c, db, op);
    } else {
      AccountsKeepMarked(c, db, op);
    }
  }

  lemma {:induction false} RunKeepsMarked(c: Config, db: Db, ops: seq<Op>)
    requires Inv(c, db) && RowsMarked(db)
    ensures RowsMarked(Run(c, db, ops))
    decreases |ops|
  {
    if ops != [] {
      ApplyKeepsInv(c, db, ops[0]);
      ApplyKeepsMarked(c, db, ops[0]);
      RunKeepsMarked(c, Apply(c, db, ops[0]), ops[1..]);
    }
  }

  /**
    In every reachable state an account without a mark stores nothing, so no byte
    is kept before its billing starts.
   */
  lemma UnmarkedStoresNothing(c: Config, ops: seq<Op>, a: AccountId)
    requires a in Run(c, EMPTY, ops).accounts && Run(c, EMPTY, ops).accounts[a].mark.None?
    ensures Used(Run(c, EMPTY, ops).rows, a) == 0
  {
    RunKeepsMarked(c, EMPTY, ops);
    ForeignRows(Run(c, EMPTY, ops).rows, a);
  }

  // ---- which instants are billed ----

  /** How often the instant `t` lies in a billed period: between the mark and a later settlement. */
  function TimesBilled(c: Config, db: Db, ops: seq<Op>, a: AccountId, t: int): nat
    decreases |ops|
  {
    if ops == [] then 0 else
    (if Bills(db, a, SettlesAt(c, db, ops[0], a), t) then 1 else 0)
    + TimesBilled(c, Apply(c, db, ops[0]), ops[1..], a, t)
  }

  /** How often a settlement moves the mark back over the instant `t`. */
  function TimesRewound(c: Config, db: Db, ops: seq<Op>, a: AccountId, t: int): nat
    decreases |ops|
  {
    if ops == [] then 0 else
    var now := SettlesAt(c, db, ops[0], a);
    (if a in db.accounts && db.accounts[a].mark.Some? && now.Some? && now.value <= t < db.accounts[a].mark.value
     then 1 else 0)
    + TimesRewound(c, Apply(c, db, ops[0]), ops[1..], a, t)
  }

  /**
    Whatever times the settlements carry, an instant between the first and the
    last mark is billed once, plus once for every time the mark was moved back
    over it; an instant outside is billed exactly as often as the mark was
    moved back over it, less the final return when the last mark is behind.
   */
  lemma {:induction false} EveryInstantBilled(c: Config, db: Db, ops: seq<Op>, a: AccountId, t: int)
    requires Inv(c, db) && a in db.accounts && a in Run(c, db, ops).accounts && db.accounts[a].mark.Some?
    ensures Run(c, db, ops).accounts[a].mark.Some?
    ensures var first, last := db.accounts[a].mark.value, Run(c, db, ops).accounts[a].mark.value;
            TimesBilled(c, db, ops, a, t) - TimesRewound(c, db, ops, a, t) ==
              (if first <= t < last then 1 else if last <= t < first then -1 else 0)
    decreases |ops|
  {
    if ops != [] {
      var next := Apply(c, db, ops[0]);
      if a !in next.accounts {
        GoneForGood(c, next, ops[1..], a);
      }
      ApplyKeepsInv(c, db, ops[0]);
      ApplyBill(c, db, ops[0], a);
      EveryInstantBilled(c, next, ops[1..], a, t);
    }
  }

  lemma {:induction false} NothingRewound(c: Config, db: Db, ops: seq<Op>, a: AccountId, t: int)
    requires NeverBehind(c, db, ops, a)
    ensures TimesRewound(c, db, ops, a, t) == 0
    decreases |ops|
  {
    if ops != [] {
      NothingRewound(c, Apply(c, db, ops[0]), ops[1..], a, t);
    }
  }

  lemma {:induction false} SomethingRewound(c: Config, db: Db, ops: seq<Op>, a: AccountId) returns (t: int)
    requires !NeverBehind(c, db, ops, a)
    ensures 0 < TimesRewound(c, db, ops, a, t)
    decreases |ops|
  {
    if NeverBehind(c, Apply(c, db, ops[0]), ops[1..], a) {
      t := SettlesAt(c, db, ops[0], a).value;
    } else {
      t := SomethingRewound(c, Apply(c, db, ops[0]), ops[1..], a);
    }
  }

  lemma BilledOnce(c: Config, db: Db, ops: seq<Op>, a: AccountId, t: int)
    requires Inv(c, db) && a in db.accounts && a in Run(c, db, ops).accounts && db.accounts[a].mark.Some?
    requires NeverBehind(c, db, ops, a)
    ensures Run(c, db, ops).accounts[a].mark.Some?
    ensures var first, last := db.accounts[a].mark.value, Run(c, db, ops).accounts[a].mark.value;
            first <= last && TimesBilled(c, db, ops, a, t) == if first <= t < last then 1 else 0
  {
    EveryInstantBilled(c, db, ops, a, t);
    NothingRewound(c, db, ops, a, t);
    var last := Run(c, db, ops).accounts[a].mark.value;
    EveryInstantBilled(c, db, ops, a, last);
    NothingRewound(c, db, ops, a, last);
  }

  /** The marks go forward and every instant between them is billed exactly once, and no other. */
  ghost predicate OnceEach(c: Config, db: Db, ops: seq<Op>, a: AccountId, first: int, last: int) {
    first <= last && forall t :: TimesBilled(c, db, ops, a, t) == if first <= t < last then 1 else 0
  }

  /**
    Every instant is billed exactly once, and none outside the marks, if and only
    if no settlement is dated before its mark.
   */
  lemma BilledOnceIff(c: Config, db: Db, ops: seq<Op>, a: AccountId)
    requires Inv(c, db) && a in db.accounts && a in Run(c, db, ops).accounts && db.accounts[a].mark.Some?
    ensures Run(c, db, ops).accounts[a].mark.Some?
    ensures OnceEach(c, db, ops, a, db.accounts[a].mark.value, Run(c, db, ops).accounts[a].mark.value)
            <==> NeverBehind(c, db, ops, a)
  {
    EveryInstantBilled(c, db, ops, a, 0);
    var first, last := db.accounts[a].mark.value, Run(c, db, ops).accounts[a].mark.value;
    if NeverBehind(c, db, ops, a) {
      forall t ensures first <= last && TimesBilled(c, db, ops, a, t) == if first <= t < last then 1 else 0 {
        BilledOnce(c, db, ops, a, t);
      }
      BilledOnce(c, db, ops, a, 0);
    } else {
      var t := SomethingRewound(c, db, ops, a);
      EveryInstantBilled(c, db, ops, a, t);
    }
  }

  /**
    The periodic pass takes one `now` before it takes any account lock.  If an
    upload or delete moves the mark to `mark` meanwhile, settling at the older
    `stale` charges nothing but gives the period back, and the next settlement
    bills it a second time.
   */
  lemma StalePassBillsTwice(db: Db, p: Prices, a: AccountId, mark: int, stale: int, later: int)
    requires a in db.accounts && db.accounts[a].mark == Some(mark) && stale < mark <= later
    ensures var bill, used, pricer := StorageBill(db.usage, a), Used(db.rows, a), PricerOf(p);
            var plain := SettleStorage(db, pricer, a, later).0;
            var rewound := SettleStorage(SettleStorage(db, pricer, a, stale).0, pricer, a, later).0;
            && StorageBill(plain.usage, a) == bill + StorageCost(p, used, later - mark)
            && StorageBill(rewound.usage, a) == bill + StorageCost(p, used, (later - mark) + (mark - stale))
  {
    var pricer := PricerOf(p);
    SettledBill(db, pricer, a, later, a);
    SettledBill(db, pricer, a, stale, a);
    SettledBill(Settled(db, pricer, a, stale), pricer, a, later, a);
  }

  // Passes run every hour and end within five minutes.  An account stores 501 MB
  // from 0 on; the pass of the 25th hour is the first that finds it due.  Four
  // minutes later, before the pass comes to the account, 1000 MB more are uploaded.
  const PASS := 25 * HOUR
  const PASS_TIMEOUT := 5 * MINUTE
  const UPLOAD := PASS + 4 * MINUTE
  const NEXT_PASS := 50 * HOUR
  const FIRST := Backup(1, 1, 1, Full, None, "a", 501 * MB, "", "")
  const SECOND := Backup(2, 1, 2, Full, None, "b", 1000 * MB, "", "")
  const OPENING := [OpenAccount(1), TopUp(1, 100)]
  const STORE := [Upload(1, 0, NewBackup(None, "a", 501 * MB, "", ""), Outside(0, 1)),
                  Upload(1, UPLOAD, NewBackup(None, "b", 1000 * MB, "", ""), Outside(501 * MB, 2))]
  const OPENED := Db(map[1 := Account(100, 0, None)], [], [], {1}, {})
  const IDLE := Db(map[1 := Account(100, 1, Some(0))], [FIRST], [], {1}, {1})

  lemma OpenedReached(c: Config)
    ensures Run(c, EMPTY, OPENING) == OPENED
  {
    Steps(c, EMPTY, OPENING);
    assert Apply(c, Apply(c, EMPTY, OPENING[0]), OPENING[1]).accounts == OPENED.accounts;
  }

  lemma IdleReached()
    ensures Apply(SERVER, OPENED, STORE[0]) == IDLE
  {
    assert Refusal(OPENED, SERVER.quota, 1, STORE[0].nb, 0).None?;
    assert [] + [FIRST] == [FIRST];
  }

  lemma SecondStored()
    ensures var db := Apply(SERVER, IDLE, STORE[1]);
            1 in db.accounts && db.accounts[1].mark == Some(UPLOAD) && Used(db.rows, 1) == 1501 * MB
  {
    AppendSums([], FIRST, 1);
    AppendSums([FIRST], SECOND, 1);
    assert [] + [FIRST] == [FIRST];
    assert Refusal(IDLE, SERVER.quota, 1, STORE[1].nb, 501 * MB).None?;
    assert Apply(SERVER, IDLE, STORE[1]).rows == [FIRST] + [SECOND];
  }

  /** 1001 MB over the free quota, from the upload to the next pass, and from the pass to the next. */
  lemma HoursOfGigabyte()
    ensures StorageCost(DEFAULT_PRICES, 1501 * MB, NEXT_PASS - UPLOAD) == 16926
    ensures StorageCost(DEFAULT_PRICES, 1501 * MB, NEXT_PASS - PASS) == 16972
  {
    assert FreeBytes(DEFAULT_PRICES) == 500 * MB;
    assert Exact(DEFAULT_PRICES, 1501 * MB, NEXT_PASS - UPLOAD) == 1001 * MB * (NEXT_PASS - UPLOAD) * 500_000;
    assert Exact(DEFAULT_PRICES, 1501 * MB, NEXT_PASS - PASS) == 1001 * MB * (NEXT_PASS - PASS) * 500_000;
  }

  lemma StoreReached()
    ensures Run(SERVER, EMPTY, OPENING + STORE[..1]) == IDLE
    ensures Run(SERVER, EMPTY, OPENING + STORE) == Apply(SERVER, IDLE, STORE[1])
  {
    OpenedReached(SERVER);
    IdleReached();
    RunSplit(SERVER, EMPTY, OPENING, STORE[..1]);
    assert STORE[..1][1..] == [];
    RunSplit(SERVER, EMPTY, OPENING, STORE);
    Steps(SERVER, OPENED, STORE);
  }

  lemma PassEndings(c: Config, db: Db, ops: seq<Op>, a: AccountId, stale: int, later: int)
    ensures var end := Run(c, db, ops);
            && Run(c, db, ops + [Settle(a, later)]) == SettleStorage(end, c.pricer, a, later).0
            && Run(c, db, ops + [Settle(a, stale), Settle(a, later)])
               == SettleStorage(SettleStorage(end, c.pricer, a, stale).0, c.pricer, a, later).0
  {
    var once, twice := [Settle(a, later)], [Settle(a, stale), Settle(a, later)];
    RunSplit(c, db, ops, once);
    assert once[1..] == [];
    RunSplit(c, db, ops, twice);
    Steps(c, Run(c, db, ops), twice);
  }

  lemma Settles(db: Db, p: Pricer, a: AccountId, now: int)
    requires a in db.accounts
    ensures var n := SettleStorage(db, p, a, now).0; a in n.accounts && n.accounts[a].mark == Some(now)
  {
  }

  /**
    It costs money on the server as it comes, within the five minutes a pass may
    take.  The account is due at the first pass, and at the next one whether or not
    the stale settlement took place; with it the next pass has billed 46
    microcredits more.
   */
  lemma StalePassExample()
    ensures PASS < UPLOAD < PASS + PASS_TIMEOUT
    ensures Due(Run(SERVER, EMPTY, OPENING + STORE[..1]), 1, PASS, DAY)
    ensures var plain := Run(SERVER, EMPTY, OPENING + STORE);
            var stale := SettleStorage(plain, SERVER.pricer, 1, PASS).0;
            Due(plain, 1, NEXT_PASS, DAY) && Due(stale, 1, NEXT_PASS, DAY)
    ensures var plain := Run(SERVER, EMPTY, OPENING + STORE + [Settle(1, NEXT_PASS)]);
            var stale := Run(SERVER, EMPTY, OPENING + STORE + [Settle(1, PASS), Settle(1, NEXT_PASS)]);
            StorageBill(stale.usage, 1) == StorageBill(plain.usage, 1) + 46
  {
    StoreReached();
    SecondStored();
    PassEndings(SERVER, EMPTY, OPENING + STORE, 1, PASS, NEXT_PASS);
    Settles(Run(SERVER, EMPTY, OPENING + STORE), SERVER.pricer, 1, PASS);
    StalePassBillsTwice(Run(SERVER, EMPTY, OPENING + STORE), DEFAULT_PRICES, 1, UPLOAD, PASS, NEXT_PASS);
    HoursOfGigabyte();
  }
}
