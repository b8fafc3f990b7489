/**
  How far one account can be overdrawn by model calls.  A call is prechecked,
  waits for a slot of the inference semaphore, runs, and is charged afterwards;
  calls of the same account interleave freely.  Each event is one such step.
 */
module Inference {
  import opened Arithmetic

  // `inFlight` bounds the calls between precheck and charge, `slots` those running a model
  datatype Limits = Limits(slots: nat, inFlight: nat, maxCost: nat)

  datatype Stage = Prechecked | Running | Computed(cost: nat)

  datatype State = State(balance: int, running: int, calls: map<int, Stage>)

  datatype Event =
    | Precheck(pid: int)
    | TakeSlot(pid: int)
    | GiveUp(pid: int)
    | Compute(pid: int, cost: nat)
    | Fail(pid: int)
    | Charge(pid: int)
    | ChargeFails(pid: int)
    | TopUp(amount: nat)

  function Start(balance: int): State {
    State(balance, 0, map[])
  }

  predicate At(s: State, pid: int, stage: Stage) {
    pid in s.calls && s.calls[pid] == stage
  }

  predicate Owes(s: State, pid: int) {
    pid in s.calls && s.calls[pid].Computed?
  }

  predicate Enabled(l: Limits, s: State, e: Event) {
    match e
    case Precheck(pid) => pid !in s.calls && |s.calls| < l.inFlight && 0 < s.balance
    case TakeSlot(pid) => At(s, pid, Prechecked) && s.running < l.slots
    case GiveUp(pid) => At(s, pid, Prechecked)
    case Compute(pid, cost) => At(s, pid, Running) && cost <= l.maxCost
    case Fail(pid) => At(s, pid, Running)
    case Charge(pid) => Owes(s, pid)
    case ChargeFails(pid) => Owes(s, pid)
    case TopUp(_) => true
  }

  function Next(l: Limits, s: State, e: Event): State
    requires Enabled(l, s, e)
  {
    match e
    case Precheck(pid) => s.(calls := s.calls[pid := Prechecked])
    case TakeSlot(pid) => s.(running := s.running + 1, calls := s.calls[pid := Running])
    case GiveUp(pid) => s.(calls := s.calls - {pid})
    case Compute(pid, cost) => s.(running := s.running - 1, calls := s.calls[pid := Computed(cost)])
    case Fail(pid) => s.(running := s.running - 1, calls := s.calls - {pid})
    case Charge(pid) => s.(balance := s.balance - s.calls[pid].cost, calls := s.calls - {pid})
    case ChargeFails(pid) => s.(calls := s.calls - {pid})
    case TopUp(amount) => s.(balance := s.balance + amount)
  }

  predicate Valid(l: Limits, s: State, es: seq<Event>)
    decreases |es|
  {
    es == [] || (Enabled(l, s, es[0]) && Valid(l, Next(l, s, es[0]), es[1..]))
  }

  function Exec(l: Limits, s: State, es: seq<Event>): State
    requires Valid(l, s, es)
    decreases |es|
  {
    if es == [] then s else Exec(l, Next(l, s, es[0]), es[1..])
  }

  function Floor(l: Limits): int {
    1 - l.inFlight * l.maxCost
  }

  /** Even if every call in flight is charged the most, the balance stays above the floor. */
  ghost predicate Inv(l: Limits, s: State) {
    && Floor(l) <= s.balance - |s.calls| * l.maxCost
    && forall p :: p in s.calls && s.calls[p].Computed? ==> s.calls[p].cost <= l.maxCost
  }

  lemma OneFewer(l: Limits, s: State, pid: int, cost: nat)
    requires Inv(l, s) && pid in s.calls && cost <= l.maxCost
    ensures Inv(l, s.(balance := s.balance - cost, calls := s.calls - {pid}))
  {
    assert s.calls.Keys == (s.calls - {pid}).Keys + {pid};
    assert |s.calls| * l.maxCost == |s.calls - {pid}| * l.maxCost + l.maxCost;
  }

  lemma OneMore(l: Limits, s: State, pid: int)
    requires Inv(l, s) && Enabled(l, s, Precheck(pid))
    ensures Inv(l, Next(l, s, Precheck(pid)))
  {
    var n := |s.calls| + 1;
    assert s.calls[pid := Prechecked].Keys == s.calls.Keys + {pid};
    MulMonotone(n, l.inFlight, l.maxCost);
  }

  lemma SameCalls(l: Limits, s: State, pid: int, stage: Stage)
    requires Inv(l, s) && pid in s.calls && (stage.Computed? ==> stage.cost <= l.maxCost)
    ensures Inv(l, s.(calls := s.calls[pid := stage]))
  {
    assert s.calls[pid := stage].Keys == s.calls.Keys;
  }

  lemma NextKeeps(l: Limits, s: State, e: Event)
    requires Inv(l, s) && Enabled(l, s, e)
    ensures Inv(l, Next(l, s, e))
  {
    match e
    case Precheck(pid) => OneMore(l, s, pid);
    case TakeSlot(pid) => SameCalls(l, s, pid, Running);
    case GiveUp(pid) => OneFewer(l, s, pid, 0);
    case Compute(pid, cost) => SameCalls(l, s, pid, Computed(cost));
    case Fail(pid) => OneFewer(l, s, pid, 0);
    case Charge(pid) => OneFewer(l, s, pid, s.calls[pid].cost);
    case ChargeFails(pid) => OneFewer(l, s, pid, 0);
    case TopUp(_) =>
  }

  lemma {:induction false} ExecKeeps(l: Limits, s: State, es: seq<Event>)
    requires Inv(l, s) && Valid(l, s, es)
    ensures Inv(l, Exec(l, s, es))
    decreases |es|
  {
    if es != [] {
      NextKeeps(l, s, es[0]);
      ExecKeeps(l, Next(l, s, es[0]), es[1..]);
    }
  }

  /** With at most N calls in flight, each costing at most C, a nonnegative balance never falls below 1 - N * C. */
  lemma OverdraftBound(l: Limits, balance: nat, es: seq<Event>)
    requires 1 <= l.inFlight && 1 <= l.maxCost && Valid(l, Start(balance), es)
    ensures Floor(l) <= Exec(l, Start(balance), es).balance
  {
    MulMonotone(1, l.inFlight, l.maxCost);
    ExecKeeps(l, Start(balance), es);
    MulNonNegative(|Exec(l, Start(balance), es).calls|, l.maxCost);
  }

  // ---- slots and money ----

  /** The calls that run a model. */
  function RunningCalls(s: State): set<int> {
    set p | p in s.calls && s.calls[p].Running?
  }

  /** One slot is taken for every call that runs, and no more than there are. */
  predicate SlotsHeld(l: Limits, s: State) {
    s.running == |RunningCalls(s)| <= l.slots
  }

  /** What an event does to the calls that run. */
  lemma RunningAfter(l: Limits, s: State, e: Event)
    requires Enabled(l, s, e)
    ensures RunningCalls(Next(l, s, e))
         == if e.TakeSlot? then RunningCalls(s) + {e.pid}
            else if e.Compute? || e.Fail? then RunningCalls(s) - {e.pid} else RunningCalls(s)
    ensures e.TakeSlot? ==> e.pid !in RunningCalls(s)
    ensures e.Compute? || e.Fail? ==> e.pid in RunningCalls(s)
  {
  }

  lemma NextKeepsSlots(l: Limits, s: State, e: Event)
    requires SlotsHeld(l, s) && Enabled(l, s, e)
    ensures SlotsHeld(l, Next(l, s, e))
  {
    RunningAfter(l, s, e);
  }

  /** Over every interleaving, no more calls run at a time than there are slots, and every slot is given back. */
  lemma {:induction false} SlotsBound(l: Limits, s: State, es: seq<Event>)
    requires SlotsHeld(l, s) && Valid(l, s, es)
    ensures SlotsHeld(l, Exec(l, s, es))
    decreases |es|
  {
    if es != [] {
      NextKeepsSlots(l, s, es[0]);
      SlotsBound(l, Next(l, s, es[0]), es[1..]);
    }
  }

  /** What the calls of a run were charged. */
  function Charged(l: Limits, s: State, es: seq<Event>): nat
    requires Valid(l, s, es)
    decreases |es|
  {
    if es == [] then 0 else
    (if es[0].Charge? then s.calls[es[0].pid].cost else 0) + Charged(l, Next(l, s, es[0]), es[1..])
  }

  function ToppedUp(es: seq<Event>): nat {
    if es == [] then 0 else (if es[0].TopUp? then es[0].amount else 0) + ToppedUp(es[1..])
  }

  /** The balance moves by what was added and what was charged, and by nothing else. */
  lemma {:induction false} BalanceConserved(l: Limits, s: State, es: seq<Event>)
    requires Valid(l, s, es)
    ensures Exec(l, s, es).balance == s.balance + ToppedUp(es) - Charged(l, s, es)
    decreases |es|
  {
    if es != [] {
      BalanceConserved(l, Next(l, s, es[0]), es[1..]);
    }
  }

  // ---- the floor is reached, however few slots there are ----

  lemma {:induction false} Snoc(l: Limits, s: State, es: seq<Event>, e: Event)
    requires Valid(l, s, es) && Enabled(l, Exec(l, s, es), e)
    ensures Valid(l, s, es + [e]) && Exec(l, s, es + [e]) == Next(l, Exec(l, s, es), e)
    decreases |es|
  {
    if es == [] {
      assert es + [e] == [e];
    } else {
      Snoc(l, Next(l, s, es[0]), es[1..], e);
      assert (es + [e])[1..] == es[1..] + [e];
    }
  }

  /** Calls `done` up to `n` have passed the precheck on a balance of 1; those before `done` have been charged. */
  function Waiting(l: Limits, n: nat, done: nat): State {
    State(1 - done * l.maxCost, 0, WaitingCalls(n, done))
  }

  lemma {:induction false} NumbersSize(n: nat)
    ensures |Numbers(n)| == n
  {
    if n != 0 {
      NumbersSize(n - 1);
    }
  }

  /** The calls numbered from `done` up to, not including, `n` wait. */
  function WaitingCalls(n: nat, done: nat): map<int, Stage> {
    map i | i in Numbers(n) && done <= i :: Prechecked
  }

  lemma OneMoreCall(n: nat)
    requires 1 <= n
    ensures |WaitingCalls(n - 1, 0)| == n - 1 && n - 1 !in WaitingCalls(n - 1, 0)
    ensures WaitingCalls(n - 1, 0)[n - 1 := Prechecked] == WaitingCalls(n, 0)
  {
    var calls := WaitingCalls(n - 1, 0);
    NumbersSize(n - 1);
    assert calls.Keys == Numbers(n - 1);
    assert |calls| == |calls.Keys|;
  }

  lemma OneMoreWaiting(l: Limits, n: nat)
    requires 1 <= n <= l.inFlight
    ensures Enabled(l, Waiting(l, n - 1, 0), Precheck(n - 1))
    ensures Next(l, Waiting(l, n - 1, 0), Precheck(n - 1)) == Waiting(l, n, 0)
  {
    hide WaitingCalls;
    OneMoreCall(n);
  }

  lemma NoneWaiting(l: Limits)
    ensures Valid(l, Start(1), []) && Exec(l, Start(1), []) == Waiting(l, 0, 0)
  {
    assert Waiting(l, 0, 0).calls == map[];
  }

  lemma AddWaiting(l: Limits, n: nat, es: seq<Event>)
    requires 1 <= n <= l.inFlight && Valid(l, Start(1), es) && Exec(l, Start(1), es) == Waiting(l, n - 1, 0)
    ensures Valid(l, Start(1), es + [Precheck(n - 1)])
    ensures Exec(l, Start(1), es + [Precheck(n - 1)]) == Waiting(l, n, 0)
  {
    OneMoreWaiting(l, n);
    Snoc(l, Start(1), es, Precheck(n - 1));
  }

  lemma {:induction false} AllPrechecked(l: Limits, n: nat) returns (es: seq<Event>)
    requires n <= l.inFlight
    ensures Valid(l, Start(1), es) && Exec(l, Start(1), es) == Waiting(l, n, 0)
  {
    if n == 0 {
      es := [];
      NoneWaiting(l);
    } else {
      es := AllPrechecked(l, n - 1);
      AddWaiting(l, n, es);
      es := es + [Precheck(n - 1)];
    }
  }

  /** One waiting call gets a slot, computes at the highest cost and is charged. */
  lemma ServeOne(l: Limits, s: State, es: seq<Event>, pid: int) returns (more: seq<Event>)
    requires Valid(l, s, es) && At(Exec(l, s, es), pid, Prechecked) && Exec(l, s, es).running == 0 && 1 <= l.slots
    ensures Valid(l, s, more)
    ensures var end := Exec(l, s, es);
            Exec(l, s, more) == State(end.balance - l.maxCost, 0, end.calls - {pid})
  {
    var end := Exec(l, s, es);
    Snoc(l, s, es, TakeSlot(pid));
    more := es + [TakeSlot(pid)];
    Snoc(l, s, more, Compute(pid, l.maxCost));
    more := more + [Compute(pid, l.maxCost)];
    Snoc(l, s, more, Charge(pid));
    more := more + [Charge(pid)];
    assert Exec(l, s, more).calls == end.calls - {pid};
  }

  lemma OneLessWaiting(l: Limits, n: nat, done: nat)
    requires 1 <= done <= n
    ensures var s := Waiting(l, n, done - 1);
            State(s.balance - l.maxCost, 0, s.calls - {done - 1}) == Waiting(l, n, done)
  {
    assert (done - 1) * l.maxCost + l.maxCost == done * l.maxCost;
    assert Waiting(l, n, done - 1).calls - {done - 1} == Waiting(l, n, done).calls;
  }

  lemma ServeNext(l: Limits, s: State, es: seq<Event>, done: nat) returns (more: seq<Event>)
    requires 1 <= done <= l.inFlight && 1 <= l.slots
    requires Valid(l, s, es) && Exec(l, s, es) == Waiting(l, l.inFlight, done - 1)
    ensures Valid(l, s, more) && Exec(l, s, more) == Waiting(l, l.inFlight, done)
  {
    assert At(Waiting(l, l.inFlight, done - 1), done - 1, Prechecked);
    more := ServeOne(l, s, es, done - 1);
    OneLessWaiting(l, l.inFlight, done);
  }

  lemma {:induction false} AllCharged(l: Limits, done: nat) returns (es: seq<Event>)
    requires done <= l.inFlight && 1 <= l.slots
    ensures Valid(l, Start(1), es) && Exec(l, Start(1), es) == Waiting(l, l.inFlight, done)
  {
    if done == 0 {
      es := AllPrechecked(l, l.inFlight);
    } else {
      es := AllCharged(l, done - 1);
      es := ServeNext(l, Start(1), es, done);
    }
  }

  ghost predicate NeverBelow(l: Limits, bound: int) {
    forall balance: nat, es: seq<Event> :: Valid(l, Start(balance), es) ==> bound <= Exec(l, Start(balance), es).balance
  }

  /**
    The floor is exact: it depends on the calls in flight and not on the
    slots, since a call is prechecked before it waits for one.
   */
  lemma OverdraftExact(l: Limits, bound: int)
    requires 1 <= l.slots && 1 <= l.inFlight && 1 <= l.maxCost
    ensures NeverBelow(l, bound) <==> bound <= Floor(l)
  {
    if bound <= Floor(l) {
      forall balance: nat, es: seq<Event> | Valid(l, Start(balance), es)
        ensures bound <= Exec(l, Start(balance), es).balance
      {
        OverdraftBound(l, balance, es);
      }
    } else {
      var es := AllCharged(l, l.inFlight);
      var one: nat := 1;
      assert Exec(l, Start(one), es).balance == Floor(l);
    }
  }
}
