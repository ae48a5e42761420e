/** The stock handlers that carry a rule: creating a stock line for a stand, and adjusting a quantity. */
module StockController {
  import opened Common
  import opened Format
  import opened Models
  import opened Database

  /** The tables after a stock line's quantity has been shifted by `delta`. */
  function AfterAdjust(t: Tables, stockId: nat, delta: int): Tables
    requires 0 < stockId <= |t.stocks|
  {
    var k := stockId - 1;
    t.(stocks := t.stocks[k := t.stocks[k].(quantite := t.stocks[k].quantite + delta)])
  }

  /** Two adjustments of one line add up; in particular an adjustment by -delta undoes one by delta. */
  lemma AdjustAdds(t: Tables, stockId: nat, a: int, b: int)
    requires 0 < stockId <= |t.stocks|
    ensures AfterAdjust(AfterAdjust(t, stockId, a), stockId, b) == AfterAdjust(t, stockId, a + b)
    ensures AfterAdjust(AfterAdjust(t, stockId, a), stockId, -a) == t
  {
    var k := stockId - 1;
    assert t.stocks[k := t.stocks[k].(quantite := t.stocks[k].quantite)] == t.stocks;
  }

  /**
   * AdjustStock: adds `delta` (which may be negative) to the quantity of stock line `stockId`,
   * refusing a negative result. `delta` is the decoded body, None when it does not decode;
   * the line is looked up before the body is read. `saveFails` is the store's answer to the save.
   */
  method AdjustStock(db: Store, stockId: nat, delta: Option<int>, saveFails: bool) returns (r: Result<Stock>)
    requires db.Valid()
    modifies db
    ensures db.Valid()
    ensures r.Err? ==> db.tables == old(db.tables)
    ensures !(0 < stockId <= |old(db.tables.stocks)|) ==> r == Err(StockNotFound)
    ensures 0 < stockId <= |old(db.tables.stocks)| && delta.None? ==> r == Err(InvalidRequest)
    ensures 0 < stockId <= |old(db.tables.stocks)| && delta.Some? ==>
              var q := old(db.tables.stocks)[stockId - 1].quantite + delta.value;
              && (q < 0 ==> r == Err(NegativeStock))
              && (q >= 0 && saveFails ==> r == Err(StoreFailure))
              && (q >= 0 && !saveFails ==> r.Ok?)
    ensures r.Ok? ==>
              && 0 < stockId <= |old(db.tables.stocks)| && delta.Some?
              && db.tables == AfterAdjust(old(db.tables), stockId, delta.value)
              && r.value == db.tables.stocks[stockId - 1]
              && r.value.quantite == old(db.tables.stocks)[stockId - 1].quantite + delta.value
              && r.value.quantite >= 0
  {
    if !(0 < stockId <= |db.tables.stocks|) {
      return Err(StockNotFound);
    }
    if delta.None? {
      return Err(InvalidRequest);
    }
    var stock := db.tables.stocks[stockId - 1];
    stock := stock.(quantite := stock.quantite + delta.value);
    if stock.quantite < 0 {
      return Err(NegativeStock);
    }
    if saveFails {
      return Err(StoreFailure);
    }
    db.tables := db.tables.(stocks := db.tables.stocks[stockId - 1 := stock]);
    r := Ok(stock);
  }

  /** The stock line CreateStock inserts: the body's fields, attached to the stand named by the path. */
  function NewStock(t: Tables, standId: nat, body: Stock): (s: Stock)
    ensures s.id == |t.stocks| + 1 && s.standId == standId
    ensures s.nomProduit == body.nomProduit && s.quantite == body.quantite && s.prixEnJetons == body.prixEnJetons
  {
    Stock(|t.stocks| + 1, standId, body.nomProduit, body.quantite, body.prixEnJetons)
  }

  /** The stand id CreateStock attaches: `uint(strconv.Atoi(param))`, so "-1" wraps to 2^64 - 1. */
  function CreateStockStandId(param: string): (r: Option<nat>)
    ensures r.Some? <==> Atoi(param).Some?
    ensures r.Some? && 0 <= Atoi(param).value ==> r.value == Atoi(param).value
    ensures r.Some? && Atoi(param).value < 0 ==> r.value == TwoTo64 + Atoi(param).value
  {
    match Atoi(param)
      case None => None
      case Some(i) => Some(ToUint64(i))
  }

  /** A decimal stand id reaches the new stock line unchanged. */
  lemma CreateStockKeepsDecimalId(standId: nat)
    requires standId <= MaxInt64
    ensures CreateStockStandId(IntToDecimal(standId)) == Some(standId)
  {
    IntRoundTrip(standId);
  }

  /**
   * CreateStock: `body` is the decoded JSON (None when it does not decode). Whatever stand
   * the body names, the line is attached to the path's stand; a negative quantity is accepted.
   */
  method CreateStock(db: Store, standParam: string, body: Option<Stock>, saveFails: bool) returns (r: Result<Stock>)
    requires db.Valid()
    modifies db
    ensures db.Valid()
    ensures r.Err? ==> db.tables == old(db.tables)
    ensures Atoi(standParam).None? ==> r == Err(InvalidRequest)
    ensures Atoi(standParam).Some? && body.None? ==> r == Err(InvalidRequest)
    ensures Atoi(standParam).Some? && body.Some? && saveFails ==> r == Err(StoreFailure)
    ensures Atoi(standParam).Some? && body.Some? && !saveFails ==>
              && r == Ok(NewStock(old(db.tables), CreateStockStandId(standParam).value, body.value))
              && db.tables == old(db.tables).(stocks := old(db.tables.stocks) + [r.value])
  {
    var standId := Atoi(standParam);
    if standId.None? {
      return Err(InvalidRequest);
    }
    if body.None? {
      return Err(InvalidRequest);
    }
    var stock := body.value.(standId := ToUint64(standId.value));
    if saveFails {
      return Err(StoreFailure);
    }
    stock := stock.(id := |db.tables.stocks| + 1);
    db.tables := db.tables.(stocks := db.tables.stocks + [stock]);
    r := Ok(stock);
  }
}
