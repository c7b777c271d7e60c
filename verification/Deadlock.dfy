/**
 Deadlocks among transactions that lock rows: when they can be reached, and an order that rules them out.
 */
module Deadlock {
  import Bank = BankLedger
  import opened RowLocks

  /** The row a live transaction waits for or takes next. */
  predicate Waiting(txns: seq<Txn>, s: State, t: nat)
    requires |s.phases| == |txns|
  {
    Live(s, t) && s.phases[t].got < |Rows(s.accounts, txns[t])|
  }

  function Awaited(txns: seq<Txn>, s: State, t: nat): int
    requires |s.phases| == |txns| && Waiting(txns, s, t)
  {
    Rows(s.accounts, txns[t])[s.phases[t].got]
  }

  /** How much is left to do. */
  function Remaining(txns: seq<Txn>, s: State, n: nat): nat
    requires |s.phases| == |txns| && n <= |txns|
  {
    if n == 0 then 0
    else
      var p := s.phases[n - 1];
      Remaining(txns, s, n - 1) + if p.Active? && p.got <= 2 then 3 - p.got else 0
  }

  lemma {:induction false} RemainingAfter(txns: seq<Txn>, s: State, s': State, t: nat, n: nat)
    requires |s.phases| == |txns| == |s'.phases| && n <= |txns|
    requires t < |txns| && s.phases[t].Active? && s.phases[t].got <= 2
    requires forall u :: 0 <= u < |txns| && u != t ==> s'.phases[u] == s.phases[u]
    requires s'.phases[t].Active? ==> s'.phases[t].got == s.phases[t].got + 1
    ensures t < n ==> Remaining(txns, s', n) < Remaining(txns, s, n)
    ensures t >= n ==> Remaining(txns, s', n) == Remaining(txns, s, n)
  {
    if n > 0 {
      RemainingAfter(txns, s, s', t, n - 1);
    }
  }

  /** Every step brings the run nearer its end. */
  lemma StepsRunOut(initial: map<int, Bank.Account>, txns: seq<Txn>, s: State, e: Event)
    requires Inv(initial, txns, s) && Enabled(txns, s, e)
    ensures Remaining(txns, Next(txns, s, e), |txns|) < Remaining(txns, s, |txns|)
  {
    assert LiveOk(txns, s, e.t);
    RemainingAfter(txns, s, Next(txns, s, e), e.t, |txns|);
  }

  // ---------------------------------------------------------------- rings

  /** Transactions are live, and none of them can lock or commit. */
  ghost predicate Stuck(txns: seq<Txn>, s: State) {
    && |s.phases| == |txns| && (exists t :: Live(s, t))
    && forall e :: Enabled(txns, s, e) ==> e.CrashOf?
  }

  /** Both transactions lock two rows, and the first one's second is the other one's first. */
  predicate Link(accounts: map<int, Bank.Account>, txns: seq<Txn>, t: nat, u: nat) {
    && t < |txns| && u < |txns|
    && |Rows(accounts, txns[t])| == 2 && |Rows(accounts, txns[u])| == 2
    && Rows(accounts, txns[t])[1] == Rows(accounts, txns[u])[0]
  }

  predicate Chain(accounts: map<int, Bank.Account>, txns: seq<Txn>, path: seq<nat>) {
    forall i :: 0 <= i < |path| - 1 ==> Link(accounts, txns, path[i], path[i + 1])
  }

  /** Transactions whose second row is the next one's first row, all the way round, with no first row twice. */
  ghost predicate Ring(accounts: map<int, Bank.Account>, txns: seq<Txn>, ring: seq<nat>) {
    && ring != [] && Chain(accounts, txns, ring) && Link(accounts, txns, ring[|ring| - 1], ring[0])
    && (forall i :: 0 <= i < |ring| ==> ring[i] < |txns| && |Rows(accounts, txns[ring[i]])| == 2)
    && forall i, j :: 0 <= i < j < |ring| ==> Rows(accounts, txns[ring[i]])[0] != Rows(accounts, txns[ring[j]])[0]
  }

  /** A transaction that holds the first of its two rows. */
  ghost predicate HoldsFirst(accounts: map<int, Bank.Account>, txns: seq<Txn>, s: State, t: nat)
    requires |s.phases| == |txns|
  {
    && Live(s, t) && s.phases[t].got == 1 && |Rows(accounts, txns[t])| == 2
    && Rows(accounts, txns[t])[0] in s.owner && s.owner[Rows(accounts, txns[t])[0]] == t
  }

  // -- a ring can be run into a deadlock

  /** While every transaction of a ring holds its first row, none of them goes on, and nothing the others do changes
      that. */
  lemma RingStays(initial: map<int, Bank.Account>, txns: seq<Txn>, ring: seq<nat>, s: State, e: Event)
    requires Ring(initial, txns, ring) && Inv(initial, txns, s) && Enabled(txns, s, e) && !e.CrashOf?
    requires forall t :: t in ring ==> HoldsFirst(initial, txns, s, t)
    ensures forall t :: t in ring ==> HoldsFirst(initial, txns, Next(txns, s, e), t)
  {
    assert e.t !in ring by {
      if e.t in ring {
        var i :| 0 <= i < |ring| && ring[i] == e.t;
        var next := if i + 1 < |ring| then ring[i + 1] else ring[0];
        assert Link(initial, txns, e.t, next);
        assert HoldsFirst(initial, txns, s, next) && HoldsFirst(initial, txns, s, e.t);
        RowsStay(initial, s.accounts, txns[e.t]);
      }
    }
  }

  /** From there the others run until nothing but the ring is left. */
  lemma {:induction false} RunUntilStuck(initial: map<int, Bank.Account>, txns: seq<Txn>, ring: seq<nat>, s: State)
    returns (es: seq<Event>)
    requires Ring(initial, txns, ring) && Inv(initial, txns, s)
    requires forall t :: t in ring ==> HoldsFirst(initial, txns, s, t)
    ensures Possible(txns, s, es) && Stuck(txns, After(txns, s, es))
    decreases Remaining(txns, s, |txns|)
  {
    if e :| Enabled(txns, s, e) && !e.CrashOf? {
      RingStays(initial, txns, ring, s, e);
      StepKeepsInv(initial, txns, s, e);
      StepsRunOut(initial, txns, s, e);
      var rest := RunUntilStuck(initial, txns, ring, Next(txns, s, e));
      es := [e] + rest;
      assert es[1..] == rest;
    } else {
      es := [];
      assert ring[0] in ring && HoldsFirst(initial, txns, s, ring[0]);
    }
  }

  /** The transactions of a ring take their first rows, one after the other; the rest have not begun. */
  ghost predicate FirstsTaken(accounts: map<int, Bank.Account>, txns: seq<Txn>, ring: seq<nat>, k: nat, s: State)
    requires k <= |ring|
  {
    && |s.phases| == |txns| && s.accounts == accounts
    && (forall t :: t in ring[..k] ==> HoldsFirst(accounts, txns, s, t))
    && (forall t: nat :: t < |txns| && t !in ring[..k] ==> s.phases[t] == Active(0, map[]))
    && forall id :: id in s.owner ==> (
         && s.owner[id] in ring[..k] && s.owner[id] < |txns|
         && Rows(accounts, txns[s.owner[id]]) != [] && Rows(accounts, txns[s.owner[id]])[0] == id)
  }

  lemma TakeOneFirst(accounts: map<int, Bank.Account>, txns: seq<Txn>, ring: seq<nat>, k: nat, s: State)
    requires Ring(accounts, txns, ring) && k < |ring| && FirstsTaken(accounts, txns, ring, k, s)
    ensures Enabled(txns, s, Lock(ring[k])) && FirstsTaken(accounts, txns, ring, k + 1, Next(txns, s, Lock(ring[k])))
  {
    var t := ring[k];
    assert ring[..k + 1] == ring[..k] + [t];
    assert t !in ring[..k];
  }

  lemma {:induction false} TakeFirsts(accounts: map<int, Bank.Account>, txns: seq<Txn>, ring: seq<nat>, k: nat,
                                      s: State)
    returns (es: seq<Event>)
    requires Ring(accounts, txns, ring) && k <= |ring| && FirstsTaken(accounts, txns, ring, k, s)
    ensures Possible(txns, s, es) && FirstsTaken(accounts, txns, ring, |ring|, After(txns, s, es))
    decreases |ring| - k
  {
    if k == |ring| {
      es := [];
    } else {
      var e := Lock(ring[k]);
      TakeOneFirst(accounts, txns, ring, k, s);
      var rest := TakeFirsts(accounts, txns, ring, k + 1, Next(txns, s, e));
      es := [e] + rest;
      assert es[1..] == rest;
    }
  }

  lemma {:induction false} PossibleConcat(txns: seq<Txn>, s: State, xs: seq<Event>, ys: seq<Event>)
    requires Possible(txns, s, xs) && Possible(txns, After(txns, s, xs), ys)
    ensures Possible(txns, s, xs + ys) && After(txns, s, xs + ys) == After(txns, After(txns, s, xs), ys)
    decreases |xs|
  {
    if xs == [] {
      assert xs + ys == ys;
    } else {
      assert (xs + ys)[1..] == xs[1..] + ys;
      PossibleConcat(txns, Next(txns, s, xs[0]), xs[1..], ys);
    }
  }

  lemma RingDeadlocks(accounts: map<int, Bank.Account>, txns: seq<Txn>, ring: seq<nat>) returns (es: seq<Event>)
    requires Ring(accounts, txns, ring)
    ensures Reaches(accounts, txns, es)
  {
    var start := Start(accounts, txns);
    assert ring[..0] == [];
    var firsts := TakeFirsts(accounts, txns, ring, 0, start);
    var s := After(txns, start, firsts);
    assert ring[..|ring|] == ring;
    StartInv(accounts, txns);
    RunKeepsInv(accounts, txns, start, firsts);
    var rest := RunUntilStuck(accounts, txns, ring, s);
    PossibleConcat(txns, start, firsts, rest);
    es := firsts + rest;
  }

  // -- a deadlock holds a ring

  /** Whoever blocks a stuck transaction holds the first of its two rows and waits for the second. */
  lemma BlockerHoldsFirst(initial: map<int, Bank.Account>, txns: seq<Txn>, s: State, t: nat) returns (u: nat)
    requires Inv(initial, txns, s) && Stuck(txns, s) && Live(s, t)
    ensures Waiting(txns, s, t) && Awaited(txns, s, t) in s.owner && u == s.owner[Awaited(txns, s, t)]
    ensures HoldsFirst(initial, txns, s, u) && Rows(initial, txns[u])[0] == Awaited(txns, s, t)
  {
    assert !Enabled(txns, s, Commit(t)) && !Enabled(txns, s, Lock(t));
    var id := Awaited(txns, s, t);
    u := s.owner[id];
    assert Live(s, u) && LiveOk(txns, s, u) && !Enabled(txns, s, Commit(u));
    RowsStay(initial, s.accounts, txns[u]);
    RowsDistinct(initial, txns[u]);
    assert id in Rows(initial, txns[u])[..s.phases[u].got];
  }

  /** Each one waits for the row the next one holds. */
  ghost predicate BlockerPath(initial: map<int, Bank.Account>, txns: seq<Txn>, s: State, path: seq<nat>)
    requires |s.phases| == |txns|
  {
    && path != [] && Chain(initial, txns, path)
    && (forall i :: 0 <= i < |path| ==> HoldsFirst(initial, txns, s, path[i]))
    && forall i, j :: 0 <= i < j < |path| ==> path[i] != path[j]
  }

  lemma ClosePath(initial: map<int, Bank.Account>, txns: seq<Txn>, s: State, path: seq<nat>, j: nat)
    requires |s.phases| == |txns| && BlockerPath(initial, txns, s, path)
    requires j < |path| && Link(initial, txns, path[|path| - 1], path[j])
    ensures Ring(initial, txns, path[j..])
  {
    var ring := path[j..];
    forall i | 0 <= i < |ring| - 1
      ensures Link(initial, txns, ring[i], ring[i + 1])
    {
      var k := j + i;
      assert Link(initial, txns, path[k], path[k + 1]);
    }
    forall i | 0 <= i < |ring|
      ensures HoldsFirst(initial, txns, s, ring[i])
    {
      assert ring[i] == path[j + i];
    }
  }

  lemma ExtendPath(initial: map<int, Bank.Account>, txns: seq<Txn>, s: State, path: seq<nat>, u: nat)
    requires |s.phases| == |txns| && BlockerPath(initial, txns, s, path)
    requires u !in path && HoldsFirst(initial, txns, s, u) && Link(initial, txns, path[|path| - 1], u)
    ensures BlockerPath(initial, txns, s, path + [u])
  {
    assert forall i :: 0 <= i < |path| ==> path[i] in path;
  }

  /** Following who blocks whom comes back to where it was. */
  lemma {:induction false} FollowBlockers(initial: map<int, Bank.Account>, txns: seq<Txn>, s: State, path: seq<nat>,
                                          free: set<nat>)
    returns (ring: seq<nat>)
    requires Inv(initial, txns, s) && Stuck(txns, s) && BlockerPath(initial, txns, s, path)
    requires free == set t: nat | t < |txns| && t !in path
    ensures Ring(initial, txns, ring)
    decreases |free|
  {
    var last := path[|path| - 1];
    var u := BlockerHoldsFirst(initial, txns, s, last);
    RowsStay(initial, s.accounts, txns[last]);
    if u in path {
      var j :| 0 <= j < |path| && path[j] == u;
      ClosePath(initial, txns, s, path, j);
      ring := path[j..];
    } else {
      ExtendPath(initial, txns, s, path, u);
      ring := FollowBlockers(initial, txns, s, path + [u], free - {u});
    }
  }

  lemma DeadlockHasRing(initial: map<int, Bank.Account>, txns: seq<Txn>, s: State) returns (ring: seq<nat>)
    requires Inv(initial, txns, s) && Stuck(txns, s)
    ensures Ring(initial, txns, ring)
  {
    var t :| Live(s, t);
    var u := BlockerHoldsFirst(initial, txns, s, t);
    ring := FollowBlockers(initial, txns, s, [u], set t: nat | t < |txns| && t !in [u]);
  }

  /** The run is possible and ends in a deadlock. */
  ghost predicate Reaches(accounts: map<int, Bank.Account>, txns: seq<Txn>, es: seq<Event>) {
    Possible(txns, Start(accounts, txns), es) && Stuck(txns, After(txns, Start(accounts, txns), es))
  }

  /** Some interleaving ends in a deadlock if and only if the lock orders form a ring. */
  lemma DeadlockExactly(accounts: map<int, Bank.Account>, txns: seq<Txn>)
    ensures (exists es :: Reaches(accounts, txns, es)) <==> (exists ring :: Ring(accounts, txns, ring))
  {
    if es :| Reaches(accounts, txns, es) {
      StartInv(accounts, txns);
      RunKeepsInv(accounts, txns, Start(accounts, txns), es);
      var ring := DeadlockHasRing(accounts, txns, After(txns, Start(accounts, txns), es));
    }
    if ring :| Ring(accounts, txns, ring) {
      var es := RingDeadlocks(accounts, txns, ring);
    }
  }

  /** Two transfers between the same two accounts in opposite directions deadlock when each locks its source first. */
  lemma OppositeTransfersDeadlock(accounts: map<int, Bank.Account>, user: int, a: int, b: int, x: int, y: int)
    returns (es: seq<Event>)
    requires a in accounts && b in accounts && a != b && accounts[a].user == accounts[b].user == user && x > 0 && y > 0
    ensures Reaches(accounts, [Transfer(user, a, b, x, false), Transfer(user, b, a, y, false)], es)
  {
    var txns := [Transfer(user, a, b, x, false), Transfer(user, b, a, y, false)];
    assert Rows(accounts, txns[0]) == [a, b] && Rows(accounts, txns[1]) == [b, a];
    assert Link(accounts, txns, 0, 1) && Link(accounts, txns, 1, 0);
    es := RingDeadlocks(accounts, txns, [0, 1]);
  }

  // ---------------------------------------------------------------- ascending order

  /** Of the transactions that wait, one waits for the greatest row. */
  lemma {:induction false} GreatestWait(txns: seq<Txn>, s: State, n: nat) returns (best: nat)
    requires |s.phases| == |txns| && n <= |txns|
    requires exists t: nat :: t < n && Waiting(txns, s, t)
    ensures best < n && Waiting(txns, s, best)
    ensures forall t: nat :: t < n && Waiting(txns, s, t) ==> Awaited(txns, s, t) <= Awaited(txns, s, best)
    decreases n
  {
    if exists t: nat :: t < n - 1 && Waiting(txns, s, t) {
      best := GreatestWait(txns, s, n - 1);
      if Waiting(txns, s, n - 1) && Awaited(txns, s, n - 1) > Awaited(txns, s, best) {
        best := n - 1;
      }
    } else {
      best := n - 1;
    }
  }

  /** Every transfer locks its lesser id first. */
  predicate Ascending(txns: seq<Txn>) {
    forall t :: t in txns && t.Transfer? ==> (t.toFirst <==> t.to < t.from)
  }

  /** In ascending order, who holds a row and still waits, waits for a greater one. */
  lemma HolderWaitsHigher(initial: map<int, Bank.Account>, txns: seq<Txn>, s: State, id: int)
    requires Ascending(txns) && Inv(initial, txns, s) && id in s.owner && Waiting(txns, s, s.owner[id])
    ensures Awaited(txns, s, s.owner[id]) > id
  {
    var holder := s.owner[id];
    assert LiveOk(txns, s, holder);
    var rows := Rows(s.accounts, txns[holder]);
    RowsDistinct(s.accounts, txns[holder]);
    var got := s.phases[holder].got;
    assert id in rows[..got];
    var i :| 0 <= i < got && rows[i] == id;
  }

  /** In ascending order some transaction can take its next lock or commit, as long as one is live. */
  lemma NoDeadlock(initial: map<int, Bank.Account>, txns: seq<Txn>, s: State) returns (e: Event)
    requires Ascending(txns) && Inv(initial, txns, s) && exists t :: Live(s, t)
    ensures Enabled(txns, s, e) && !e.CrashOf?
  {
    if t: nat :| Live(s, t) && !Waiting(txns, s, t) {
      e := Commit(t);
    } else {
      var t: nat :| Live(s, t);
      var best := GreatestWait(txns, s, |txns|);
      var id := Awaited(txns, s, best);
      e := Lock(best);
      if id in s.owner {
        HolderWaitsHigher(initial, txns, s, id);
        assert false;
      }
    }
  }

  /** Hence in ascending order every state has a crash-free continuation that finishes every live transaction. */
  lemma {:induction false} AllCanFinish(initial: map<int, Bank.Account>, txns: seq<Txn>, s: State)
    returns (es: seq<Event>)
    requires Ascending(txns) && Inv(initial, txns, s)
    ensures Possible(txns, s, es) && (forall e :: e in es ==> !e.CrashOf?)
    ensures forall t :: !Live(After(txns, s, es), t)
    decreases Remaining(txns, s, |txns|)
  {
    if exists t :: Live(s, t) {
      var e := NoDeadlock(initial, txns, s);
      StepKeepsInv(initial, txns, s, e);
      StepsRunOut(initial, txns, s, e);
      var rest := AllCanFinish(initial, txns, Next(txns, s, e));
      es := [e] + rest;
      assert es[1..] == rest;
    } else {
      es := [];
    }
  }

  /** So ascending lock orders form no ring. */
  lemma AscendingHasNoRing(accounts: map<int, Bank.Account>, txns: seq<Txn>, ring: seq<nat>)
    requires Ascending(txns)
    ensures !Ring(accounts, txns, ring)
  {
    if Ring(accounts, txns, ring) {
      var es := RingDeadlocks(accounts, txns, ring);
      StartInv(accounts, txns);
      RunKeepsInv(accounts, txns, Start(accounts, txns), es);
      var e := NoDeadlock(accounts, txns, After(txns, Start(accounts, txns), es));
    }
  }
}
