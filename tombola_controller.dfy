/**
 * The tombola handlers: ticket numbering, buying a ticket, the Fisher-Yates shuffle and
 * the draw that hands the tombola's lots to shuffled tickets.
 *
 * Randomness is supplied by the caller: `sample` is what crypto/rand draws for a ticket
 * number, `picks` the successive results of rand.Intn in the shuffle.
 */
module TombolaController {
  import opened Common
  import opened Format
  import opened Models
  import opened Database
  import opened JetonController

  // ---------------------------------------------------------------- ticket numbers

  /** What a ticket number carries: the creation time in nanoseconds and the random part. */
  datatype TicketStamp = TicketStamp(timestamp: int, random: nat)

  /** "T-<timestamp>-<random>" */
  function TicketNumber(timestamp: int, random: nat): string {
    "T-" + IntToDecimal(timestamp) + "-" + NatToDecimal(random)
  }

  /** Reads a ticket number back: "T-", a signed decimal, "-", then exactly four digits. */
  function ParseTicketNumber(s: string): Option<TicketStamp> {
    if |s| < 8 || s[..2] != "T-" || s[|s| - 5] != '-' || !AllDigits(s[|s| - 4..]) then None
    else match Atoi(s[2..|s| - 5])
      case None => None
      case Some(timestamp) => Some(TicketStamp(timestamp, DigitsValue(s[|s| - 4..])))
  }

  /** Where the parser finds the pieces of "T-" + a + "-" + b when b has four characters. */
  lemma TicketNumberPieces(a: string, b: string)
    requires |b| == 4
    ensures var s := "T-" + a + "-" + b;
            && s[..2] == "T-" && s[|s| - 5] == '-' && s[|s| - 4..] == b && s[2..|s| - 5] == a
  {
  }

  /** Every number the handler can produce reads back as the stamp it was made from. */
  lemma TicketNumberRoundTrip(timestamp: int, random: nat)
    requires MinInt64 <= timestamp <= MaxInt64 && 1000 <= random <= 9999
    ensures ParseTicketNumber(TicketNumber(timestamp, random)) == Some(TicketStamp(timestamp, random))
  {
    FourDigits(random);
    TicketNumberPieces(IntToDecimal(timestamp), NatToDecimal(random));
    IntRoundTrip(timestamp);
    DecimalRoundTrip(random);
  }

  /** Two tickets made at different times, or with different random parts, get different numbers. */
  lemma TicketNumberInjective(t1: int, r1: nat, t2: int, r2: nat)
    requires MinInt64 <= t1 <= MaxInt64 && 1000 <= r1 <= 9999
    requires MinInt64 <= t2 <= MaxInt64 && 1000 <= r2 <= 9999
    requires TicketNumber(t1, r1) == TicketNumber(t2, r2)
    ensures t1 == t2 && r1 == r2
  {
    TicketNumberRoundTrip(t1, r1);
    TicketNumberRoundTrip(t2, r2);
  }

  /**
   * generateTicketNumber, with common.GenerateRandomNumber(1000, 9999) inlined: `sample` is
   * the draw from [0, 9000) that crypto/rand returned, or None when it failed.
   */
  function GenerateTicketNumber(now: int, sample: Option<nat>): (r: Result<string>)
    requires MinInt64 <= now <= MaxInt64
    requires sample.Some? ==> sample.value < 9000
    ensures sample.None? ==> r == Err(TicketNumberFailed)
    ensures sample.Some? ==> r.Ok? && ParseTicketNumber(r.value) == Some(TicketStamp(now, 1000 + sample.value))
  {
    match sample
      case None => Err(TicketNumberFailed)
      case Some(n) =>
        TicketNumberRoundTrip(now, n + 1000);
        Ok(TicketNumber(now, n + 1000))
  }

  // ---------------------------------------------------------------- buying a ticket

  /** "Achat d'un ticket pour la tombola %d" */
  function TicketDescription(tombolaId: nat): string {
    Join(["Achat d'un ticket pour la tombola ", NatToDecimal(tombolaId)])
  }

  datatype TicketReceipt = TicketReceipt(ticket: Ticket, newBalance: int)

  /** The tables after a ticket purchase: a new ticket, 2 jetons debited, an ACHAT record of 2. */
  function AfterTicket(t: Tables, tombolaId: nat, userId: nat, numero: string): Tables
    requires 0 < userId <= |t.users|
  {
    var u := userId - 1;
    t.(tickets := t.tickets + [Ticket(|t.tickets| + 1, Some(tombolaId), userId, numero, false, PrixTicket)],
       users := t.users[u := t.users[u].(soldeJetons := t.users[u].soldeJetons - PrixTicket)],
       transactions := t.transactions + [JetonTransaction(
         |t.transactions| + 1, userId, PrixTicket, TransactionTypeAchat,
         TicketDescription(tombolaId), None, None, "")])
  }

  /**
   * A ticket costs exactly 2 jetons, which leave circulation (no stand collects them), while
   * the ACHAT total grows by 2 and the ticket joins the tombola's pool, not yet a winner.
   */
  lemma TicketBurnsPrice(t: Tables, tombolaId: nat, userId: nat, numero: string)
    requires 0 < userId <= |t.users|
    ensures var after := AfterTicket(t, tombolaId, userId, numero);
            && after.users[userId - 1].soldeJetons == t.users[userId - 1].soldeJetons - PrixTicket
            && TotalTokens(after) == TotalTokens(t) - PrixTicket
            && MontantOfKind(after.transactions, TransactionTypeAchat)
                 == MontantOfKind(t.transactions, TransactionTypeAchat) + PrixTicket
            && TicketsOf(after.tickets, tombolaId)
                 == TicketsOf(t.tickets, tombolaId) + [Ticket(|t.tickets| + 1, Some(tombolaId), userId, numero, false, PrixTicket)]
  {
    var after := AfterTicket(t, tombolaId, userId, numero);
    BalanceChange(t.users, userId - 1, after.users[userId - 1]);
    MontantOfKindPush(t.transactions, after.transactions[|t.transactions|], TransactionTypeAchat);
    FilterAppend(t.tickets, after.tickets[|t.tickets|], (x: Ticket) => x.tombolaId == Some(tombolaId));
  }

  lemma TicketKeepsWellFormed(t: Tables, tombolaId: nat, userId: nat, numero: string)
    requires WellFormed(t) && 0 < userId <= |t.users| && PrixTicket <= t.users[userId - 1].soldeJetons
    ensures WellFormed(AfterTicket(t, tombolaId, userId, numero))
  {
  }

  /**
   * The transactional part of BuyTicket. Writes: 0 ticket, 1 user balance, 2 ledger record,
   * 3 commit; any failure rolls every write back.
   */
  method SaveTicket(db: Store, tombolaId: nat, userId: nat, numero: string, fault: Option<nat>)
    returns (r: Result<TicketReceipt>)
    requires db.Valid() && 0 < userId <= |db.tables.users| && PrixTicket <= db.tables.users[userId - 1].soldeJetons
    modifies db
    ensures db.Valid()
    ensures r.Err? ==> r.error == StoreFailure && db.tables == old(db.tables)
    ensures fault.None? ==> r.Ok?
    ensures r.Ok? ==>
              && db.tables == AfterTicket(old(db.tables), tombolaId, userId, numero)
              && r.value == TicketReceipt(db.tables.tickets[|old(db.tables.tickets)|],
                                          db.tables.users[userId - 1].soldeJetons)
  {
    var begin := db.tables;  // tx := DB.Begin()
    var ticket := Ticket(|db.tables.tickets| + 1, Some(tombolaId), userId, numero, false, PrixTicket);
    if Fails(fault, 0) {
      db.Rollback(begin);
      return Err(StoreFailure);
    }
    db.tables := db.tables.(tickets := db.tables.tickets + [ticket]);

    var user := db.tables.users[userId - 1];
    user := user.(soldeJetons := user.soldeJetons - PrixTicket);
    if Fails(fault, 1) {
      db.Rollback(begin);
      return Err(StoreFailure);
    }
    db.tables := db.tables.(users := db.tables.users[userId - 1 := user]);

    var record := JetonTransaction(
      |db.tables.transactions| + 1, user.id, PrixTicket, TransactionTypeAchat,
      TicketDescription(tombolaId), None, None, "");
    if Fails(fault, 2) {
      db.Rollback(begin);
      return Err(StoreFailure);
    }
    db.tables := db.tables.(transactions := db.tables.transactions + [record]);
    if Fails(fault, 3) {
      db.Rollback(begin);
      return Err(StoreFailure);
    }
    assert db.tables == AfterTicket(begin, tombolaId, userId, numero);
    TicketKeepsWellFormed(begin, tombolaId, userId, numero);
    r := Ok(TicketReceipt(ticket, user.soldeJetons));
  }

  /**
   * BuyTicket. `tombolaParam` is the path parameter, `now` the clock in nanoseconds.
   * The tombola id is parsed but never looked up.
   */
  method BuyTicket(
    db: Store, tombolaParam: string, userId: nat, now: int, sample: Option<nat>, fault: Option<nat>)
    returns (r: Result<TicketReceipt>)
    requires db.Valid()
    requires MinInt64 <= now <= MaxInt64
    requires sample.Some? ==> sample.value < 9000
    modifies db
    ensures db.Valid()
    ensures r.Err? ==> db.tables == old(db.tables)
    ensures ParseUint32(tombolaParam).None? ==> r == Err(InvalidId)
    ensures ParseUint32(tombolaParam).Some? && userId == 0 ==> r == Err(InvalidRequest)
    ensures ParseUint32(tombolaParam).Some? && userId > |old(db.tables.users)| ==> r == Err(UserNotFound)
    ensures (ParseUint32(tombolaParam).Some? && 0 < userId <= |old(db.tables.users)|
             && old(db.tables.users)[userId - 1].soldeJetons < PrixTicket) ==> r == Err(InsufficientJetons)
    ensures (ParseUint32(tombolaParam).Some? && 0 < userId <= |old(db.tables.users)|
             && PrixTicket <= old(db.tables.users)[userId - 1].soldeJetons && sample.None?) ==>
              r == Err(TicketNumberFailed)
    ensures (ParseUint32(tombolaParam).Some? && 0 < userId <= |old(db.tables.users)|
             && PrixTicket <= old(db.tables.users)[userId - 1].soldeJetons && sample.Some? && fault.None?) ==>
              r.Ok?
    ensures r.Ok? ==>
              && ParseUint32(tombolaParam).Some? && 0 < userId <= |old(db.tables.users)| && sample.Some?
              && PrixTicket <= old(db.tables.users)[userId - 1].soldeJetons
              && ParseTicketNumber(r.value.ticket.numero) == Some(TicketStamp(now, 1000 + sample.value))
              && db.tables == AfterTicket(old(db.tables), ParseUint32(tombolaParam).value, userId, r.value.ticket.numero)
              && r.value.newBalance == db.tables.users[userId - 1].soldeJetons
  {
    var parsed := ParseUint32(tombolaParam);
    if parsed.None? {
      return Err(InvalidId);
    }
    if userId == 0 {
      return Err(InvalidRequest);
    }
    if !(0 < userId <= |db.tables.users|) {
      return Err(UserNotFound);
    }
    if db.tables.users[userId - 1].soldeJetons < PrixTicket {
      return Err(InsufficientJetons);
    }
    var numero := GenerateTicketNumber(now, sample);
    if numero.Err? {
      return Err(TicketNumberFailed);
    }
    r := SaveTicket(db, parsed.value, userId, numero.value, fault);
  }

  // ---------------------------------------------------------------- the shuffle

  /** What rand.Intn(i + 1) may return at each step of the shuffle, for i = n-1 down to 1. */
  predicate ValidPicks(n: nat, picks: seq<nat>) {
    && |picks| == (if n == 0 then 0 else n - 1)
    && forall k :: 0 <= k < |picks| ==> picks[k] <= n - 1 - k
  }

  function Swap<T>(s: seq<T>, i: nat, j: nat): (r: seq<T>)
    requires i < |s| && j < |s|
    ensures |r| == |s|
  {
    s[i := s[j]][j := s[i]]
  }

  /** Steps i, i-1, ..., 1 of the shuffle; step i swaps position i with picks[0]. */
  function ShuffleSteps<T>(s: seq<T>, i: nat, picks: seq<nat>): (r: seq<T>)
    requires i < |s| && |picks| == i && forall k :: 0 <= k < i ==> picks[k] <= i - k
    ensures |r| == |s|
    decreases i
  {
    if i == 0 then s else ShuffleSteps(Swap(s, i, picks[0]), i - 1, picks[1..])
  }

  /** The order shuffleTickets leaves a slice in, given the random picks. */
  function FisherYates<T>(s: seq<T>, picks: seq<nat>): (r: seq<T>)
    requires ValidPicks(|s|, picks)
    ensures |r| == |s|
  {
    if |s| == 0 then s else ShuffleSteps(s, |s| - 1, picks)
  }

  lemma SwapPermutes<T>(s: seq<T>, i: nat, j: nat)
    requires i < |s| && j < |s|
    ensures multiset(Swap(s, i, j)) == multiset(s)
  {
  }

  lemma {:induction false} ShuffleStepsPermute<T>(s: seq<T>, i: nat, picks: seq<nat>)
    requires i < |s| && |picks| == i && forall k :: 0 <= k < i ==> picks[k] <= i - k
    ensures multiset(ShuffleSteps(s, i, picks)) == multiset(s)
    decreases i
  {
    if i > 0 {
      SwapPermutes(s, i, picks[0]);
      ShuffleStepsPermute(Swap(s, i, picks[0]), i - 1, picks[1..]);
    }
  }

  /** Whatever the picks, the shuffle is a permutation: same length, same multiset. */
  lemma ShufflePermutes<T>(s: seq<T>, picks: seq<nat>)
    requires ValidPicks(|s|, picks)
    ensures |FisherYates(s, picks)| == |s|
    ensures multiset(FisherYates(s, picks)) == multiset(s)
  {
    if |s| > 0 {
      ShuffleStepsPermute(s, |s| - 1, picks);
    }
  }

  /** shuffleTickets: Fisher-Yates in place, from the last position down to 1. */
  method ShuffleTickets(a: array<Ticket>, picks: seq<nat>)
    requires ValidPicks(a.Length, picks)
    modifies a
    ensures a[..] == FisherYates(old(a[..]), picks)
    ensures multiset(a[..]) == multiset(old(a[..]))
  {
    var n := a.Length;
    var i: int := n - 1;
    while i > 0
      invariant n == 0 ==> i == -1
      invariant n > 0 ==> 0 <= i < n
      invariant n > 0 ==> ShuffleSteps(a[..], i, picks[n - 1 - i..]) == FisherYates(old(a[..]), picks)
      invariant n == 0 ==> a[..] == old(a[..])
    {
      var rest := picks[n - 1 - i..];
      var j := picks[n - 1 - i];
      assert rest[0] == j && rest[1..] == picks[n - 1 - (i - 1)..];
      ghost var before := a[..];
      a[i], a[j] := a[j], a[i];
      assert a[..] == Swap(before, i, j);
      i := i - 1;
    }
    ShufflePermutes(old(a[..]), picks);
  }

  // ---------------------------------------------------------------- the draw

  function Min(a: int, b: int): int {
    if a <= b then a else b
  }

  /** The tombola's tickets, as `Preload("Tickets")` loads them: every one, winner or not. */
  function TicketsOf(tickets: seq<Ticket>, tombolaId: nat): seq<Ticket> {
    Filter(tickets, (x: Ticket) => x.tombolaId == Some(tombolaId))
  }

  /** The tombola's lots, in table order. */
  function LotsOf(lots: seq<Lot>, tombolaId: nat): seq<Lot> {
    Filter(lots, (x: Lot) => x.tombolaId == tombolaId)
  }

  predicate DistinctIds(s: seq<Ticket>) {
    forall i, j :: 0 <= i < |s| && 0 <= j < |s| && i != j ==> s[i].id != s[j].id
  }

  /** Tickets loaded from the table come in increasing id order, so no id repeats. */
  lemma {:induction false} TicketsOfIncreasing(tickets: seq<Ticket>, tombolaId: nat)
    requires TicketsKeyed(tickets)
    ensures var pool := TicketsOf(tickets, tombolaId);
            forall i, j :: 0 <= i < j < |pool| ==> pool[i].id < pool[j].id
  {
    if tickets != [] {
      var init, last := tickets[..|tickets| - 1], tickets[|tickets| - 1];
      assert tickets == init + [last];
      FilterAppend(init, last, (x: Ticket) => x.tombolaId == Some(tombolaId));
      TicketsOfIncreasing(init, tombolaId);
      var prefix := TicketsOf(init, tombolaId);
      forall x | x in prefix
        ensures x.id < last.id
      {
        var m :| 0 <= m < |init| && init[m] == x;
      }
    }
  }

  /** Lots loaded from the table come in increasing id order. */
  lemma {:induction false} LotsOfIncreasing(lots: seq<Lot>, tombolaId: nat)
    requires LotsKeyed(lots)
    ensures var pool := LotsOf(lots, tombolaId);
            forall i, j :: 0 <= i < j < |pool| ==> pool[i].id < pool[j].id
  {
    if lots != [] {
      var init, last := lots[..|lots| - 1], lots[|lots| - 1];
      assert lots == init + [last];
      FilterAppend(init, last, (x: Lot) => x.tombolaId == tombolaId);
      LotsOfIncreasing(init, tombolaId);
      var prefix := LotsOf(init, tombolaId);
      forall x | x in prefix
        ensures x.id < last.id
      {
        var m :| 0 <= m < |init| && init[m] == x;
      }
    }
  }

  /** In one draw over the tombola's lots, no lot is handed out twice. */
  lemma DrawAwardsDistinctLots(shuffled: seq<Ticket>, lots: seq<Lot>, tombolaId: nat, firstId: nat)
    requires LotsKeyed(lots)
    ensures var w := DrawWinners(shuffled, LotsOf(lots, tombolaId), tombolaId, firstId);
            forall a, b :: 0 <= a < |w| && 0 <= b < |w| && a != b ==> w[a].lotId != w[b].lotId
  {
    LotsOfIncreasing(lots, tombolaId);
    var pool := LotsOf(lots, tombolaId);
    var w := DrawWinners(shuffled, pool, tombolaId, firstId);
    forall a, b | 0 <= a < |w| && 0 <= b < |w| && a != b
      ensures w[a].lotId != w[b].lotId
    {
      assert w[a].lotId == pool[a].id && w[b].lotId == pool[b].id;
      if a < b { assert pool[a].id < pool[b].id; } else { assert pool[b].id < pool[a].id; }
    }
  }

  lemma SwapKeepsDistinct(s: seq<Ticket>, i: nat, j: nat)
    requires i < |s| && j < |s| && DistinctIds(s)
    ensures DistinctIds(Swap(s, i, j))
  {
    var r := Swap(s, i, j);
    forall a, b | 0 <= a < |r| && 0 <= b < |r| && a != b
      ensures r[a].id != r[b].id
    {
      var sa := if a == i then j else if a == j then i else a;
      var sb := if b == i then j else if b == j then i else b;
      assert r[a] == s[sa] && r[b] == s[sb];
    }
  }

  lemma {:induction false} ShuffleStepsKeepDistinct(s: seq<Ticket>, i: nat, picks: seq<nat>)
    requires i < |s| && |picks| == i && forall k :: 0 <= k < i ==> picks[k] <= i - k
    requires DistinctIds(s)
    ensures DistinctIds(ShuffleSteps(s, i, picks))
    decreases i
  {
    if i > 0 {
      SwapKeepsDistinct(s, i, picks[0]);
      ShuffleStepsKeepDistinct(Swap(s, i, picks[0]), i - 1, picks[1..]);
    }
  }

  /** The winners of a draw: the k-th lot goes to the k-th shuffled ticket, while both last. */
  function DrawWinners(shuffled: seq<Ticket>, lots: seq<Lot>, tombolaId: nat, firstId: nat): (w: seq<Gagnant>)
    ensures |w| == Min(|shuffled|, |lots|)
  {
    seq(Min(|shuffled|, |lots|), k requires 0 <= k < Min(|shuffled|, |lots|) =>
      Gagnant(firstId + k, shuffled[k].userId, tombolaId, lots[k].id, shuffled[k].id))
  }

  /**
   * A draw over the tombola's tickets hands out min(#tickets, #lots) lots, lot k to winner k,
   * no ticket twice, and every winner is the owner of one of the tombola's tickets.
   */
  lemma DrawPicksDistinctTickets(tickets: seq<Ticket>, lots: seq<Lot>, tombolaId: nat, picks: seq<nat>, firstId: nat)
    requires TicketsKeyed(tickets) && ValidPicks(|TicketsOf(tickets, tombolaId)|, picks)
    ensures var pool := TicketsOf(tickets, tombolaId);
            var w := DrawWinners(FisherYates(pool, picks), lots, tombolaId, firstId);
            && |w| == Min(|pool|, |lots|)
            && (forall k :: 0 <= k < |w| ==> w[k].lotId == lots[k].id && w[k].tombolaId == tombolaId)
            && (forall a, b :: 0 <= a < |w| && 0 <= b < |w| && a != b ==> w[a].ticketId != w[b].ticketId)
            && (forall k :: 0 <= k < |w| ==>
                  exists x :: x in pool && x.id == w[k].ticketId && x.userId == w[k].userId)
  {
    var pool := TicketsOf(tickets, tombolaId);
    var shuffled := FisherYates(pool, picks);
    var w := DrawWinners(shuffled, lots, tombolaId, firstId);
    TicketsOfIncreasing(tickets, tombolaId);
    assert DistinctIds(pool) by {
      forall i, j | 0 <= i < |pool| && 0 <= j < |pool| && i != j
        ensures pool[i].id != pool[j].id
      {
        if i < j { assert pool[i].id < pool[j].id; } else { assert pool[j].id < pool[i].id; }
      }
    }
    if |pool| > 0 {
      ShuffleStepsKeepDistinct(pool, |pool| - 1, picks);
    }
    ShufflePermutes(pool, picks);
    forall k | 0 <= k < |w|
      ensures exists x :: x in pool && x.id == w[k].ticketId && x.userId == w[k].userId
    {
      assert shuffled[k] in multiset(shuffled);
      assert shuffled[k] in pool;
    }
  }

  /**
   * `Save` of each won ticket, in draw order: the row at its id becomes the ticket as loaded,
   * marked as a winner. (A ticket whose id lies outside the table is skipped; the draw only
   * marks tickets loaded from the table, so that case does not arise.)
   */
  function MarkWon(tickets: seq<Ticket>, won: seq<Ticket>): (r: seq<Ticket>)
    ensures |r| == |tickets|
  {
    if won == [] then tickets
    else
      var last, marked := won[|won| - 1], MarkWon(tickets, won[..|won| - 1]);
      if 0 < last.id <= |marked| then marked[last.id - 1 := last.(estGagnant := true)] else marked
  }

  predicate Won(won: seq<Ticket>, id: nat) {
    exists x :: x in won && x.id == id
  }

  /** Every selected ticket ends as a winner; every other ticket row is left as it was. */
  lemma {:induction false} MarkWonEffect(tickets: seq<Ticket>, won: seq<Ticket>)
    requires forall x :: x in won ==> 0 < x.id <= |tickets| && tickets[x.id - 1] == x
    ensures forall i :: 0 <= i < |tickets| ==>
              MarkWon(tickets, won)[i] == if Won(won, i + 1) then tickets[i].(estGagnant := true) else tickets[i]
  {
    if won != [] {
      var init, last := won[..|won| - 1], won[|won| - 1];
      assert forall x :: x in init ==> x in won;
      MarkWonEffect(tickets, init);
      forall i | 0 <= i < |tickets|
        ensures MarkWon(tickets, won)[i] == if Won(won, i + 1) then tickets[i].(estGagnant := true) else tickets[i]
      {
        if i == last.id - 1 {
          assert last in won;
        } else {
          if Won(won, i + 1) {
            var x :| x in won && x.id == i + 1;
            assert x in init;
          }
          if Won(init, i + 1) {
            var x :| x in init && x.id == i + 1;
            assert x in won;
          }
        }
      }
    }
  }

  /** Marking winners never moves a row: ids still match positions. */
  lemma {:induction false} MarkWonKeepsKeyed(tickets: seq<Ticket>, won: seq<Ticket>)
    requires TicketsKeyed(tickets)
    ensures TicketsKeyed(MarkWon(tickets, won))
  {
    if won != [] {
      MarkWonKeepsKeyed(tickets, won[..|won| - 1]);
    }
  }

  /** The tables after the draw has created `winners` and saved the tickets `won`. */
  function AfterDraw(t: Tables, winners: seq<Gagnant>, won: seq<Ticket>): Tables {
    t.(gagnants := t.gagnants + winners, tickets := MarkWon(t.tickets, won))
  }

  /** The order PerformDraw puts the tombola's tickets in. */
  function ShuffledPool(t: Tables, tombolaId: nat, picks: seq<nat>): (r: seq<Ticket>)
    requires ValidPicks(|TicketsOf(t.tickets, tombolaId)|, picks)
    ensures |r| == |TicketsOf(t.tickets, tombolaId)|
  {
    FisherYates(TicketsOf(t.tickets, tombolaId), picks)
  }

  /** The winners PerformDraw creates, numbered after the existing ones. */
  function DrawOf(t: Tables, tombolaId: nat, picks: seq<nat>): (w: seq<Gagnant>)
    requires ValidPicks(|TicketsOf(t.tickets, tombolaId)|, picks)
    ensures |w| == Min(|TicketsOf(t.tickets, tombolaId)|, |LotsOf(t.lots, tombolaId)|)
  {
    DrawWinners(ShuffledPool(t, tombolaId, picks), LotsOf(t.lots, tombolaId), tombolaId, |t.gagnants| + 1)
  }

  /** Any prefix of a draw, with any tickets marked, leaves the tables well formed. */
  lemma DrawKeepsWellFormed(t: Tables, tombolaId: nat, picks: seq<nat>, j: nat, won: seq<Ticket>)
    requires WellFormed(t) && ValidPicks(|TicketsOf(t.tickets, tombolaId)|, picks)
    requires j <= |DrawOf(t, tombolaId, picks)|
    ensures WellFormed(AfterDraw(t, DrawOf(t, tombolaId, picks)[..j], won))
  {
    MarkWonKeepsKeyed(t.tickets, won);
  }

  /** The tickets a tombola preloads are rows of the ticket table. */
  lemma TicketsOfInTable(tickets: seq<Ticket>, tombolaId: nat)
    requires TicketsKeyed(tickets)
    ensures forall x :: x in TicketsOf(tickets, tombolaId) ==> 0 < x.id <= |tickets| && tickets[x.id - 1] == x
  {
    forall x | x in TicketsOf(tickets, tombolaId)
      ensures 0 < x.id <= |tickets| && tickets[x.id - 1] == x
    {
      var i :| 0 <= i < |tickets| && tickets[i] == x;
    }
  }

  /**
   * The loop of performDrawLogic: lot k goes to the k-th shuffled ticket while tickets last.
   * The writes go straight to the store, with no transaction: per lot k, write 2k creates
   * the winner and write 2k+1 saves the ticket; a failure keeps everything written before it.
   */
  method AwardLots(db: Store, tombolaId: nat, shuffled: seq<Ticket>, lots: seq<Lot>, fault: Option<nat>)
    returns (r: Result<seq<Gagnant>>)
    requires forall x :: x in shuffled ==> 0 < x.id <= |db.tables.tickets|
    modifies db
    ensures var w := DrawWinners(shuffled, lots, tombolaId, |old(db.tables.gagnants)| + 1);
            && (r.Ok? ==> r.value == w && db.tables == AfterDraw(old(db.tables), w, shuffled[..|w|]))
            && (r.Err? ==>
                  && r.error == StoreFailure && fault.Some? && fault.value / 2 < |w|
                  && var k := fault.value / 2;
                     db.tables == AfterDraw(old(db.tables), w[..k + fault.value % 2], shuffled[..k]))
    ensures fault.None? ==> r.Ok?
  {
    ghost var w := DrawWinners(shuffled, lots, tombolaId, |db.tables.gagnants| + 1);
    ghost var start := db.tables;
    var winners: seq<Gagnant> := [];
    var available := shuffled;
    for k := 0 to |lots|
      invariant k <= |shuffled| && available == shuffled[k..]
      invariant winners == w[..k]
      invariant db.tables == AfterDraw(start, winners, shuffled[..k])
    {
      if |available| == 0 {
        break;
      }
      var winningTicket := available[0];
      available := available[1..];
      var winner := Gagnant(|db.tables.gagnants| + 1, winningTicket.userId, tombolaId, lots[k].id, winningTicket.id);
      if Fails(fault, 2 * k) {
        return Err(StoreFailure);
      }
      db.tables := db.tables.(gagnants := db.tables.gagnants + [winner]);
      winners := winners + [winner];
      assert winners == w[..k + 1];

      winningTicket := winningTicket.(estGagnant := true);
      if Fails(fault, 2 * k + 1) {
        return Err(StoreFailure);
      }
      assert shuffled[k] in shuffled && shuffled[..k + 1][..k] == shuffled[..k];
      db.tables := db.tables.(tickets := db.tables.tickets[winningTicket.id - 1 := winningTicket]);
    }
    assert winners == w;
    r := Ok(winners);
  }

  /** performDrawLogic, given the tombola's preloaded tickets and lots: shuffle, then award. */
  method PerformDrawLogic(
    db: Store, tombolaId: nat, tickets: seq<Ticket>, lots: seq<Lot>, picks: seq<nat>, fault: Option<nat>)
    returns (r: Result<seq<Gagnant>>)
    requires ValidPicks(|tickets|, picks)
    requires forall x :: x in tickets ==> 0 < x.id <= |db.tables.tickets|
    modifies db
    ensures var shuffled := FisherYates(tickets, picks);
            var w := DrawWinners(shuffled, lots, tombolaId, |old(db.tables.gagnants)| + 1);
            && (r.Ok? ==> r.value == w && db.tables == AfterDraw(old(db.tables), w, shuffled[..|w|]))
            && (r.Err? ==>
                  && r.error == StoreFailure && fault.Some? && fault.value / 2 < |w|
                  && var k := fault.value / 2;
                     db.tables == AfterDraw(old(db.tables), w[..k + fault.value % 2], shuffled[..k]))
    ensures fault.None? ==> r.Ok?
  {
    var pool := new Ticket[|tickets|](i requires 0 <= i < |tickets| => tickets[i]);
    assert pool[..] == tickets;
    ShuffleTickets(pool, picks);
    var shuffled := pool[..];
    assert forall x :: x in shuffled ==> x in tickets by {
      forall x | x in shuffled ensures x in tickets {
        assert x in multiset(shuffled);
      }
    }
    r := AwardLots(db, tombolaId, shuffled, lots, fault);
  }

  /** The draw itself, once the tombola is known to have tickets and lots. */
  method RunDraw(db: Store, tombolaId: nat, picks: seq<nat>, fault: Option<nat>)
    returns (r: Result<seq<Gagnant>>)
    requires db.Valid()
    requires ValidPicks(|TicketsOf(db.tables.tickets, tombolaId)|, picks)
    modifies db
    ensures db.Valid()
    ensures fault.None? ==> r.Ok?
    ensures r.Ok? ==>
              && r.value == DrawOf(old(db.tables), tombolaId, picks)
              && db.tables == AfterDraw(old(db.tables), r.value, ShuffledPool(old(db.tables), tombolaId, picks)[..|r.value|])
    ensures r.Err? ==>
              && r.error == StoreFailure && fault.Some? && fault.value / 2 < |DrawOf(old(db.tables), tombolaId, picks)|
              && var k := fault.value / 2;
                 db.tables == AfterDraw(old(db.tables), DrawOf(old(db.tables), tombolaId, picks)[..k + fault.value % 2],
                                        ShuffledPool(old(db.tables), tombolaId, picks)[..k])
  {
    var tickets := TicketsOf(db.tables.tickets, tombolaId);
    var lots := LotsOf(db.tables.lots, tombolaId);
    ghost var begin := db.tables;
    TicketsOfInTable(db.tables.tickets, tombolaId);
    assert ShuffledPool(begin, tombolaId, picks) == FisherYates(tickets, picks);
    assert DrawOf(begin, tombolaId, picks) == DrawWinners(FisherYates(tickets, picks), lots, tombolaId, |begin.gagnants| + 1);
    r := PerformDrawLogic(db, tombolaId, tickets, lots, picks, fault);
    if r.Ok? {
      DrawKeepsWellFormed(begin, tombolaId, picks, |r.value|, ShuffledPool(begin, tombolaId, picks)[..|r.value|]);
    } else {
      var k := fault.value / 2;
      DrawKeepsWellFormed(begin, tombolaId, picks, k + fault.value % 2, ShuffledPool(begin, tombolaId, picks)[..k]);
    }
  }

  /**
   * PerformDraw: loads the tombola with its tickets and lots, refuses an empty draw, then
   * runs the draw logic. Tickets that already won stay in the pool.
   */
  method PerformDraw(db: Store, tombolaId: nat, picks: seq<nat>, fault: Option<nat>)
    returns (r: Result<seq<Gagnant>>)
    requires db.Valid()
    requires ValidPicks(|TicketsOf(db.tables.tickets, tombolaId)|, picks)
    modifies db
    ensures db.Valid()
    ensures !(0 < tombolaId <= |old(db.tables.tombolas)|) ==> r == Err(TombolaNotFound)
    ensures 0 < tombolaId <= |old(db.tables.tombolas)| && TicketsOf(old(db.tables.tickets), tombolaId) == [] ==>
              r == Err(NoTickets)
    ensures (0 < tombolaId <= |old(db.tables.tombolas)| && TicketsOf(old(db.tables.tickets), tombolaId) != []
             && LotsOf(old(db.tables.lots), tombolaId) == []) ==> r == Err(NoLots)
    ensures r.Err? && r.error != StoreFailure ==> db.tables == old(db.tables)
    ensures (0 < tombolaId <= |old(db.tables.tombolas)| && TicketsOf(old(db.tables.tickets), tombolaId) != []
             && LotsOf(old(db.tables.lots), tombolaId) != [] && fault.None?) ==> r.Ok?
    ensures r.Ok? ==>
              && r.value == DrawOf(old(db.tables), tombolaId, picks) && |r.value| >= 1
              && db.tables == AfterDraw(old(db.tables), r.value, ShuffledPool(old(db.tables), tombolaId, picks)[..|r.value|])
    ensures r.Err? && r.error == StoreFailure ==>
              && fault.Some? && fault.value / 2 < |DrawOf(old(db.tables), tombolaId, picks)|
              && var k := fault.value / 2;
                 db.tables == AfterDraw(old(db.tables), DrawOf(old(db.tables), tombolaId, picks)[..k + fault.value % 2],
                                        ShuffledPool(old(db.tables), tombolaId, picks)[..k])
  {
    if !(0 < tombolaId <= |db.tables.tombolas|) {
      return Err(TombolaNotFound);
    }
    if |TicketsOf(db.tables.tickets, tombolaId)| == 0 {
      return Err(NoTickets);
    }
    if |LotsOf(db.tables.lots, tombolaId)| == 0 {
      return Err(NoLots);
    }
    r := RunDraw(db, tombolaId, picks, fault);
  }
}
