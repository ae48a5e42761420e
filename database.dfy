/**
 * The relational store the handlers read and write through the ORM, as one object
 * with one sequence per table. Rows are kept in insertion order and the store assigns
 * auto-increment ids, so the row with id k sits at position k - 1 (no modelled
 * operation deletes rows).
 */
module Database {
  import opened Common
  import opened Models

  /** The content of every table at one moment: what a transaction can roll back to. */
  datatype Tables = Tables(
    users: seq<User>, parents: seq<Parent>, eleves: seq<Eleve>,
    organisateurs: seq<RoleRecord>, teneurs: seq<RoleRecord>,
    stands: seq<Stand>, stocks: seq<Stock>,
    tombolas: seq<Tombola>, lots: seq<Lot>, tickets: seq<Ticket>, gagnants: seq<Gagnant>,
    transactions: seq<JetonTransaction>)

  predicate UsersKeyed(s: seq<User>) { forall i :: 0 <= i < |s| ==> s[i].id == i + 1 }
  predicate ParentsKeyed(s: seq<Parent>) { forall i :: 0 <= i < |s| ==> s[i].id == i + 1 }
  predicate ElevesKeyed(s: seq<Eleve>) { forall i :: 0 <= i < |s| ==> s[i].id == i + 1 }
  predicate RoleRecordsKeyed(s: seq<RoleRecord>) { forall i :: 0 <= i < |s| ==> s[i].id == i + 1 }
  predicate StandsKeyed(s: seq<Stand>) { forall i :: 0 <= i < |s| ==> s[i].id == i + 1 }
  predicate StocksKeyed(s: seq<Stock>) { forall i :: 0 <= i < |s| ==> s[i].id == i + 1 }
  predicate TombolasKeyed(s: seq<Tombola>) { forall i :: 0 <= i < |s| ==> s[i].id == i + 1 }
  predicate LotsKeyed(s: seq<Lot>) { forall i :: 0 <= i < |s| ==> s[i].id == i + 1 }
  predicate TicketsKeyed(s: seq<Ticket>) { forall i :: 0 <= i < |s| ==> s[i].id == i + 1 }
  predicate GagnantsKeyed(s: seq<Gagnant>) { forall i :: 0 <= i < |s| ==> s[i].id == i + 1 }
  predicate TransactionsKeyed(s: seq<JetonTransaction>) { forall i :: 0 <= i < |s| ==> s[i].id == i + 1 }

  /** The unique index on users.email. */
  predicate EmailsUnique(s: seq<User>) {
    forall i, j :: 0 <= i < j < |s| ==> s[i].email != s[j].email
  }

  predicate BalancesNonNegative(s: seq<User>) {
    forall i :: 0 <= i < |s| ==> s[i].soldeJetons >= 0
  }

  /** What every modelled operation preserves: ids match positions, emails are unique, no balance is negative. */
  predicate WellFormed(t: Tables) {
    && UsersKeyed(t.users) && ParentsKeyed(t.parents) && ElevesKeyed(t.eleves)
    && RoleRecordsKeyed(t.organisateurs) && RoleRecordsKeyed(t.teneurs)
    && StandsKeyed(t.stands) && StocksKeyed(t.stocks)
    && TombolasKeyed(t.tombolas) && LotsKeyed(t.lots) && TicketsKeyed(t.tickets)
    && GagnantsKeyed(t.gagnants) && TransactionsKeyed(t.transactions)
    && EmailsUnique(t.users) && BalancesNonNegative(t.users)
  }

  /** Position of the first element satisfying p: what `Where(...).First(...)` and `Stocks[0]` pick. */
  function FirstIndex<T>(s: seq<T>, p: T -> bool): (r: Option<nat>)
    ensures r.Some? ==> r.value < |s| && p(s[r.value]) && forall j :: 0 <= j < r.value ==> !p(s[j])
    ensures r.None? ==> forall j :: 0 <= j < |s| ==> !p(s[j])
  {
    if |s| == 0 then None
    else if p(s[0]) then Some(0)
    else match FirstIndex(s[1..], p)
      case None => None
      case Some(k) => Some(k + 1)
  }

  /** The rows satisfying p, in table order: what a `Where(...).Find(...)` or a Preload returns. */
  function Filter<T>(s: seq<T>, p: T -> bool): (r: seq<T>)
    ensures |r| <= |s|
    ensures forall x :: x in r ==> x in s && p(x)
    ensures forall x :: x in s && p(x) ==> x in r
  {
    if |s| == 0 then []
    else Filter(s[..|s| - 1], p) + (if p(s[|s| - 1]) then [s[|s| - 1]] else [])
  }

  lemma {:induction false} FilterAppend<T>(s: seq<T>, x: T, p: T -> bool)
    ensures Filter(s + [x], p) == Filter(s, p) + (if p(x) then [x] else [])
  {
    assert (s + [x])[..|s + [x]| - 1] == s;
  }

  function Sum(xs: seq<int>): int {
    if xs == [] then 0 else Sum(xs[..|xs| - 1]) + xs[|xs| - 1]
  }

  lemma {:induction false} SumAppend(xs: seq<int>, ys: seq<int>)
    ensures Sum(xs + ys) == Sum(xs) + Sum(ys)
  {
    if ys == [] {
      assert xs + ys == xs;
    } else {
      assert (xs + ys)[..|xs + ys| - 1] == xs + ys[..|ys| - 1];
      SumAppend(xs, ys[..|ys| - 1]);
    }
  }

  lemma {:induction false} SumUpdate(xs: seq<int>, i: nat, v: int)
    requires i < |xs|
    ensures Sum(xs[i := v]) == Sum(xs) - xs[i] + v
  {
    var n := |xs|;
    if i == n - 1 {
      assert xs[i := v][..n - 1] == xs[..n - 1];
    } else {
      assert xs[i := v][..n - 1] == xs[..n - 1][i := v];
      SumUpdate(xs[..n - 1], i, v);
    }
  }

  function Balances(users: seq<User>): (b: seq<int>)
    ensures |b| == |users| && forall i :: 0 <= i < |users| ==> b[i] == users[i].soldeJetons
  {
    seq(|users|, i requires 0 <= i < |users| => users[i].soldeJetons)
  }

  function Collected(stands: seq<Stand>): (c: seq<int>)
    ensures |c| == |stands| && forall i :: 0 <= i < |stands| ==> c[i] == stands[i].jetonsCollectes
  {
    seq(|stands|, i requires 0 <= i < |stands| => stands[i].jetonsCollectes)
  }

  /** Jetons in circulation: every user's balance plus every stand's collected counter. */
  function TotalTokens(t: Tables): int {
    Sum(Balances(t.users)) + Sum(Collected(t.stands))
  }

  /** Changing one user's balance by d changes the sum of balances by d. */
  lemma BalanceChange(users: seq<User>, i: nat, u: User)
    requires i < |users|
    ensures Sum(Balances(users[i := u])) == Sum(Balances(users)) - users[i].soldeJetons + u.soldeJetons
  {
    assert Balances(users[i := u]) == Balances(users)[i := u.soldeJetons];
    SumUpdate(Balances(users), i, u.soldeJetons);
  }

  /** A new user adds its balance to the sum of balances. */
  lemma BalanceAppend(users: seq<User>, u: User)
    ensures Sum(Balances(users + [u])) == Sum(Balances(users)) + u.soldeJetons
  {
    assert Balances(users + [u]) == Balances(users) + [u.soldeJetons];
    SumAppend(Balances(users), [u.soldeJetons]);
  }

  /** Changing one stand's counter by d changes the sum of counters by d. */
  lemma CollectedChange(stands: seq<Stand>, i: nat, s: Stand)
    requires i < |stands|
    ensures Sum(Collected(stands[i := s])) == Sum(Collected(stands)) - stands[i].jetonsCollectes + s.jetonsCollectes
  {
    assert Collected(stands[i := s]) == Collected(stands)[i := s.jetonsCollectes];
    SumUpdate(Collected(stands), i, s.jetonsCollectes);
  }

  /** The store: the tables behind the ORM. Handlers are methods that take it as `db`. */
  class Store {
    var tables: Tables

    /** Opens the store on existing tables. */
    constructor (init: Tables)
      ensures tables == init
    {
      tables := init;
    }

    predicate Valid()
      reads this
    {
      WellFormed(tables)
    }

    /** `tx.Rollback()`: every table goes back to what it held when the transaction began. */
    method Rollback(begin: Tables)
      modifies this
      ensures tables == begin
    {
      tables := begin;
    }
  }
}
