/** The stand handlers with rules: stand type parsing, stand creation, jeton and point counters, stock lines. */
module StandController {
  import opened Common
  import opened Format
  import opened Models
  import opened Database

  /** stringToTypeStand: the inverse of `StandType.String()`, failing on any other string. */
  function StringToTypeStand(s: string): (r: Result<StandType>)
    ensures r.Ok? <==> s == "NOURRITURE" || s == "BOISSON" || s == "ACTIVITES"
    ensures r.Ok? ==> 0 <= r.value < 3 && StandTypeString(r.value) == s
    ensures r.Err? ==> r.error == InvalidType("type invalide: " + s)
  {
    match s
      case "NOURRITURE" => Ok(StandNourriture)
      case "BOISSON" => Ok(StandBoisson)
      case "ACTIVITES" => Ok(StandActivite)
      case _ => Err(InvalidType("type invalide: " + s))
  }

  /** Every stand type survives printing and parsing back. */
  lemma StandTypeRoundTrip(t: StandType)
    requires 0 <= t < 3
    ensures StringToTypeStand(StandTypeString(t)) == Ok(t)
  {
  }

  /** `String()` gives the three stand types three different names. */
  lemma StandTypeStringInjective(t1: StandType, t2: StandType)
    requires 0 <= t1 < 3 && 0 <= t2 < 3 && StandTypeString(t1) == StandTypeString(t2)
    ensures t1 == t2
  {
    StandTypeRoundTrip(t1);
    StandTypeRoundTrip(t2);
  }

  /** requests.CreateStandRequest; nom, type, kermesse_id and teneur_id are `binding:"required"`. */
  datatype CreateStandRequest = CreateStandRequest(
    nom: string, standType: string, kermesseId: nat, teneurId: nat,
    positionX: int, positionY: int, jetonsCollectes: int, pointsAttribues: int)

  /** `required` on a string refuses "", on a uint refuses 0. */
  predicate BindsStand(req: CreateStandRequest) {
    req.nom != "" && req.standType != "" && req.kermesseId != 0 && req.teneurId != 0
  }

  /** response.StandResponse: the created stand with its type written out. */
  datatype StandResponse = StandResponse(stand: Stand, typeName: string)

  /** The stand CreateStand inserts for a request whose type parses. */
  function NewStand(t: Tables, req: CreateStandRequest, standType: StandType): Stand {
    Stand(|t.stands| + 1, req.nom, standType, req.kermesseId, req.teneurId,
          req.positionX, req.positionY, req.jetonsCollectes, req.pointsAttribues)
  }

  /**
   * CreateStand. `req` is the decoded body (None when it does not decode); an invalid type
   * is refused before anything is inserted.
   */
  method CreateStand(db: Store, req: Option<CreateStandRequest>, saveFails: bool) returns (r: Result<StandResponse>)
    requires db.Valid()
    modifies db
    ensures db.Valid()
    ensures r.Err? ==> db.tables == old(db.tables)
    ensures req.None? || !BindsStand(req.value) ==> r == Err(InvalidRequest)
    ensures req.Some? && BindsStand(req.value) && StringToTypeStand(req.value.standType).Err? ==>
              r == Err(InvalidType("type invalide: " + req.value.standType))
    ensures req.Some? && BindsStand(req.value) && StringToTypeStand(req.value.standType).Ok? ==>
              r == (if saveFails then Err(StoreFailure) else Ok(StandResponse(
                      NewStand(old(db.tables), req.value, StringToTypeStand(req.value.standType).value),
                      req.value.standType)))
    ensures r.Ok? ==> db.tables == old(db.tables).(stands := old(db.tables.stands) + [r.value.stand])
  {
    if req.None? || !BindsStand(req.value) {
      return Err(InvalidRequest);
    }
    var standType := StringToTypeStand(req.value.standType);
    if standType.Err? {
      return Err(standType.error);
    }
    var stand := NewStand(db.tables, req.value, standType.value);
    if saveFails {
      return Err(StoreFailure);
    }
    db.tables := db.tables.(stands := db.tables.stands + [stand]);
    r := Ok(StandResponse(stand, StandTypeString(stand.standType)));
  }

  /** The tables after CollectJetons has saved the stand's new counter. */
  function AfterCollect(t: Tables, standId: nat, montant: int): Tables
    requires 0 < standId <= |t.stands|
  {
    var k := standId - 1;
    t.(stands := t.stands[k := t.stands[k].(jetonsCollectes := t.stands[k].jetonsCollectes + montant)])
  }

  /**
   * Collecting debits nobody: the jetons in circulation change by exactly `montant`, which
   * may be negative, and only the stand's counter moves.
   */
  lemma CollectShiftsCirculation(t: Tables, standId: nat, montant: int)
    requires 0 < standId <= |t.stands|
    ensures TotalTokens(AfterCollect(t, standId, montant)) == TotalTokens(t) + montant
    ensures AfterCollect(t, standId, montant).users == t.users
  {
    var k := standId - 1;
    CollectedChange(t.stands, k, t.stands[k].(jetonsCollectes := t.stands[k].jetonsCollectes + montant));
  }

  /**
   * CollectJetons: adds `montant` to the stand's collected jetons, with no sign check. The
   * save's error is ignored: the answer is the same whether or not it was stored.
   */
  method CollectJetons(db: Store, standId: nat, montant: Option<int>, saveFails: bool) returns (r: Result<int>)
    requires db.Valid()
    modifies db
    ensures db.Valid()
    ensures montant.None? ==> r == Err(InvalidRequest)
    ensures montant.Some? && !(0 < standId <= |old(db.tables.stands)|) ==> r == Err(StandNotFound)
    ensures r.Err? || saveFails ==> db.tables == old(db.tables)
    ensures montant.Some? && 0 < standId <= |old(db.tables.stands)| ==>
              && r == Ok(old(db.tables.stands)[standId - 1].jetonsCollectes + montant.value)
              && (!saveFails ==> db.tables == AfterCollect(old(db.tables), standId, montant.value))
  {
    if montant.None? {
      return Err(InvalidRequest);
    }
    if !(0 < standId <= |db.tables.stands|) {
      return Err(StandNotFound);
    }
    var stand := db.tables.stands[standId - 1];
    stand := stand.(jetonsCollectes := stand.jetonsCollectes + montant.value);
    if !saveFails {
      db.tables := db.tables.(stands := db.tables.stands[standId - 1 := stand]);
    }
    r := Ok(stand.jetonsCollectes);
  }

  /** The tables after AttributePoints has saved the stand's new points counter. */
  function AfterAttributePoints(t: Tables, standId: nat, points: int): Tables
    requires 0 < standId <= |t.stands|
  {
    var k := standId - 1;
    t.(stands := t.stands[k := t.stands[k].(pointsAttribues := t.stands[k].pointsAttribues + points)])
  }

  /** Points are not jetons: attributing them leaves the circulation and every balance alone. */
  lemma PointsKeepCirculation(t: Tables, standId: nat, points: int)
    requires 0 < standId <= |t.stands|
    ensures TotalTokens(AfterAttributePoints(t, standId, points)) == TotalTokens(t)
    ensures AfterAttributePoints(t, standId, points).users == t.users
  {
    var k := standId - 1;
    CollectedChange(t.stands, k, t.stands[k].(pointsAttribues := t.stands[k].pointsAttribues + points));
  }

  /**
   * AttributePoints: only an activity stand takes points; they are added to its counter.
   * As in CollectJetons, the save's error is ignored.
   */
  method AttributePoints(db: Store, standId: nat, points: Option<int>, saveFails: bool) returns (r: Result<int>)
    requires db.Valid()
    modifies db
    ensures db.Valid()
    ensures points.None? ==> r == Err(InvalidRequest)
    ensures points.Some? && !(0 < standId <= |old(db.tables.stands)|) ==> r == Err(StandNotFound)
    ensures (points.Some? && 0 < standId <= |old(db.tables.stands)|
             && old(db.tables.stands)[standId - 1].standType != StandActivite) ==> r == Err(NotActivityStand)
    ensures r.Err? || saveFails ==> db.tables == old(db.tables)
    ensures (points.Some? && 0 < standId <= |old(db.tables.stands)|
             && old(db.tables.stands)[standId - 1].standType == StandActivite) ==>
              && r == Ok(old(db.tables.stands)[standId - 1].pointsAttribues + points.value)
              && (!saveFails ==> db.tables == AfterAttributePoints(old(db.tables), standId, points.value))
  {
    if points.None? {
      return Err(InvalidRequest);
    }
    if !(0 < standId <= |db.tables.stands|) {
      return Err(StandNotFound);
    }
    var stand := db.tables.stands[standId - 1];
    if stand.standType != StandActivite {
      return Err(NotActivityStand);
    }
    stand := stand.(pointsAttribues := stand.pointsAttribues + points.value);
    if !saveFails {
      db.tables := db.tables.(stands := db.tables.stands[standId - 1 := stand]);
    }
    r := Ok(stand.pointsAttribues);
  }

  /**
   * ManageStock: inserts the body as a new stock line of the path's stand and answers
   * `Data: true`. The body is decoded first, then the id is parsed as a uint32; the body's own
   * stand id is overwritten.
   */
  method ManageStock(db: Store, standParam: string, body: Option<Stock>, saveFails: bool) returns (r: Result<bool>)
    requires db.Valid()
    modifies db
    ensures db.Valid()
    ensures r.Err? ==> db.tables == old(db.tables)
    ensures body.None? ==> r == Err(InvalidRequest)
    ensures body.Some? && ParseUint32(standParam).None? ==> r == Err(InvalidId)
    ensures body.Some? && ParseUint32(standParam).Some? && saveFails ==> r == Err(StoreFailure)
    ensures body.Some? && ParseUint32(standParam).Some? && !saveFails ==>
              && r == Ok(true)
              && db.tables == old(db.tables).(stocks := old(db.tables.stocks) +
                   [body.value.(id := |old(db.tables.stocks)| + 1, standId := ParseUint32(standParam).value)])
  {
    if body.None? {
      return Err(InvalidRequest);
    }
    var parsed := ParseUint32(standParam);
    if parsed.None? {
      return Err(InvalidId);
    }
    var stock := body.value.(standId := parsed.value);
    if saveFails {
      return Err(StoreFailure);
    }
    stock := stock.(id := |db.tables.stocks| + 1);
    db.tables := db.tables.(stocks := db.tables.stocks + [stock]);
    r := Ok(true);
  }
}
