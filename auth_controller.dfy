/**
 * The account handlers with rules: role parsing, registration with its role record, and a
 * parent adding a child account. Password hashing and tokens are not part of this model.
 */
module AuthController {
  import opened Common
  import opened Models
  import opened Database
  import opened JetonController

  /** stringToRole: the inverse of `Role.String()`, failing on any other string. */
  function StringToRole(s: string): (r: Result<Role>)
    ensures r.Ok? <==> s == "ELEVE" || s == "PARENT" || s == "TENEUR_STAND" || s == "ORGANISATEUR" || s == "ADMIN"
    ensures r.Ok? ==> 0 <= r.value < 5 && RoleString(r.value) == s
    ensures r.Err? ==> r.error == InvalidRole("rôle invalide: " + s)
  {
    match s
      case "ELEVE" => Ok(RoleEleve)
      case "PARENT" => Ok(RoleParent)
      case "TENEUR_STAND" => Ok(RoleTeneurStand)
      case "ORGANISATEUR" => Ok(RoleOrganisateur)
      case "ADMIN" => Ok(RoleAdmin)
      case _ => Err(InvalidRole("rôle invalide: " + s))
  }

  /** Every role survives printing and parsing back. */
  lemma RoleRoundTrip(r: Role)
    requires 0 <= r < 5
    ensures StringToRole(RoleString(r)) == Ok(r)
  {
  }

  /** `String()` gives the five roles five different names. */
  lemma RoleStringInjective(r1: Role, r2: Role)
    requires 0 <= r1 < 5 && 0 <= r2 < 5 && RoleString(r1) == RoleString(r2)
    ensures r1 == r2
  {
    RoleRoundTrip(r1);
    RoleRoundTrip(r2);
  }

  /** requests.RegisterRequest and requests.AddChildRequest have the same four fields. */
  datatype AccountRequest = AccountRequest(name: string, email: string, password: string, role: string)

  /**
   * The binding rules both requests declare that this model can state: every field
   * `required` and the password `min=6`. The `email` format rule is left to the decoder:
   * a request that fails it arrives as None.
   */
  predicate BindsAccount(req: AccountRequest) {
    req.name != "" && req.email != "" && |req.password| >= 6 && req.role != ""
  }

  predicate EmailTaken(users: seq<User>, email: string) {
    exists u :: u in users && u.email == email
  }

  /** The user row an account request creates: no jetons yet. */
  function NewUser(t: Tables, req: AccountRequest, role: Role): User {
    User(|t.users| + 1, req.name, req.email, role, 0)
  }

  /** The role record Register adds next to the user, picked by the request's role string. */
  function WithRoleRecord(t: Tables, role: string, userId: nat): Tables {
    match role
      case "ELEVE" => t.(eleves := t.eleves + [Eleve(|t.eleves| + 1, userId, None, 0)])
      case "PARENT" => t.(parents := t.parents + [Parent(|t.parents| + 1, userId, 0)])
      case "ORGANISATEUR" => t.(organisateurs := t.organisateurs + [RoleRecord(|t.organisateurs| + 1, userId)])
      case "TENEUR_STAND" => t.(teneurs := t.teneurs + [RoleRecord(|t.teneurs| + 1, userId)])
      case _ => t
  }

  /** The tables after a successful registration. */
  function AfterRegister(t: Tables, req: AccountRequest, role: Role): Tables {
    var u := NewUser(t, req, role);
    WithRoleRecord(t.(users := t.users + [u]), req.role, u.id)
  }

  /**
   * A registration adds exactly one user, whose role prints back as the request's role,
   * and gives it the matching record: an eleve, a parent, an organisateur or a stand keeper
   * (none for an admin). The new user holds no jetons, so circulation is unchanged.
   */
  lemma {:induction false} RegisterCreatesRoleRecord(t: Tables, req: AccountRequest)
    requires StringToRole(req.role).Ok?
    ensures var role := StringToRole(req.role).value;
            var after := AfterRegister(t, req, role);
            var id := |t.users| + 1;
            && after.users == t.users + [User(id, req.name, req.email, role, 0)]
            && RoleString(after.users[id - 1].roles) == req.role
            && TotalTokens(after) == TotalTokens(t)
            && (req.role == "ELEVE" <==> |after.eleves| == |t.eleves| + 1)
            && (req.role == "ELEVE" ==> after.eleves[|t.eleves|] == Eleve(|t.eleves| + 1, id, None, 0))
            && (req.role == "PARENT" <==> |after.parents| == |t.parents| + 1)
            && (req.role == "PARENT" ==> after.parents[|t.parents|] == Parent(|t.parents| + 1, id, 0))
            && (req.role == "ORGANISATEUR" <==> |after.organisateurs| == |t.organisateurs| + 1)
            && (req.role == "ORGANISATEUR" ==> after.organisateurs[|t.organisateurs|] == RoleRecord(|t.organisateurs| + 1, id))
            && (req.role == "TENEUR_STAND" <==> |after.teneurs| == |t.teneurs| + 1)
            && (req.role == "TENEUR_STAND" ==> after.teneurs[|t.teneurs|] == RoleRecord(|t.teneurs| + 1, id))
            && after.stands == t.stands && after.transactions == t.transactions
  {
    var role := StringToRole(req.role).value;
    BalanceAppend(t.users, NewUser(t, req, role));
  }

  /** Registering a free email keeps the tables well formed, the unique email index included. */
  lemma RegisterKeepsWellFormed(t: Tables, req: AccountRequest, role: Role)
    requires WellFormed(t) && !EmailTaken(t.users, req.email)
    ensures WellFormed(AfterRegister(t, req, role))
  {
    var users := t.users + [NewUser(t, req, role)];
    forall i, j | 0 <= i < j < |users|
      ensures users[i].email != users[j].email
    {
      if j == |t.users| {
        assert t.users[i] in t.users;
      }
    }
  }

  /**
   * Register. `req` is the decoded body (None when it does not decode or its email is
   * malformed); `hashFails` is bcrypt's answer, true when it refuses the password (over 72
   * bytes, say). Writes: 0 user, 1 role record, 2 commit. When the organisateur or stand
   * keeper record fails, the handler rolls back but does not return: it goes on to Commit,
   * which fails on the finished transaction.
   */
  method Register(db: Store, req: Option<AccountRequest>, hashFails: bool, fault: Option<nat>) returns (r: Result<nat>)
    requires db.Valid()
    modifies db
    ensures db.Valid()
    ensures r.Err? ==> db.tables == old(db.tables)
    ensures req.None? || !BindsAccount(req.value) ==> r == Err(InvalidRequest)
    ensures req.Some? && BindsAccount(req.value) && EmailTaken(old(db.tables.users), req.value.email) ==>
              r == Err(EmailInUse)
    ensures (req.Some? && BindsAccount(req.value) && !EmailTaken(old(db.tables.users), req.value.email)
             && StringToRole(req.value.role).Err?) ==> r == Err(StringToRole(req.value.role).error)
    ensures (req.Some? && BindsAccount(req.value) && !EmailTaken(old(db.tables.users), req.value.email)
             && StringToRole(req.value.role).Ok? && hashFails) ==> r == Err(PasswordHashFailed)
    ensures (req.Some? && BindsAccount(req.value) && !EmailTaken(old(db.tables.users), req.value.email)
             && StringToRole(req.value.role).Ok? && !hashFails && fault.None?) ==> r.Ok?
    ensures r.Ok? ==>
              && req.Some? && BindsAccount(req.value) && !EmailTaken(old(db.tables.users), req.value.email)
              && StringToRole(req.value.role).Ok? && !hashFails
              && r.value == |old(db.tables.users)| + 1
              && db.tables == AfterRegister(old(db.tables), req.value, StringToRole(req.value.role).value)
  {
    if req.None? || !BindsAccount(req.value) {
      return Err(InvalidRequest);
    }
    var rq := req.value;
    if EmailTaken(db.tables.users, rq.email) {
      return Err(EmailInUse);
    }
    var role := StringToRole(rq.role);
    if role.Err? {
      return Err(role.error);
    }
    if hashFails {
      return Err(PasswordHashFailed);
    }
    var newUser := NewUser(db.tables, rq, role.value);

    var begin := db.tables;  // tx := DB.Begin()
    var txOpen := true;
    if Fails(fault, 0) {
      db.Rollback(begin);
      return Err(StoreFailure);
    }
    db.tables := db.tables.(users := db.tables.users + [newUser]);

    match rq.role {
      case "ELEVE" =>
        if Fails(fault, 1) {
          db.Rollback(begin);
          return Err(StoreFailure);
        }
        db.tables := db.tables.(eleves := db.tables.eleves + [Eleve(|db.tables.eleves| + 1, newUser.id, None, 0)]);
      case "PARENT" =>
        if Fails(fault, 1) {
          db.Rollback(begin);
          return Err(StoreFailure);
        }
        db.tables := db.tables.(parents := db.tables.parents + [Parent(|db.tables.parents| + 1, newUser.id, 0)]);
      case "ORGANISATEUR" =>
        if Fails(fault, 1) {
          db.Rollback(begin);
          txOpen := false;  // no return: execution reaches Commit
        } else {
          db.tables := db.tables.(organisateurs := db.tables.organisateurs + [RoleRecord(|db.tables.organisateurs| + 1, newUser.id)]);
        }
      case "TENEUR_STAND" =>
        if Fails(fault, 1) {
          db.Rollback(begin);
          txOpen := false;  // no return: execution reaches Commit
        } else {
          db.tables := db.tables.(teneurs := db.tables.teneurs + [RoleRecord(|db.tables.teneurs| + 1, newUser.id)]);
        }
      case _ =>
    }

    // Commit on a rolled-back transaction fails.
    if !txOpen || Fails(fault, 2) {
      db.Rollback(begin);
      return Err(StoreFailure);
    }
    assert db.tables == AfterRegister(begin, rq, role.value);
    RegisterKeepsWellFormed(begin, rq, role.value);
    r := Ok(newUser.id);
  }

  /** The tables after a parent record `p` has added a child account for `req`. */
  function AfterAddChild(t: Tables, p: nat, req: AccountRequest, role: Role): Tables
    requires p < |t.parents|
  {
    var child := NewUser(t, req, role);
    t.(users := t.users + [child],
       eleves := t.eleves + [Eleve(|t.eleves| + 1, child.id, Some(t.parents[p].id), 0)])
  }

  /**
   * Adding a child appends exactly the new eleve to the parent's Enfants, and that eleve
   * belongs to the new user; no jetons appear.
   */
  lemma {:induction false} AddChildAppendsEnfant(t: Tables, p: nat, req: AccountRequest, role: Role)
    requires p < |t.parents|
    ensures var after := AfterAddChild(t, p, req, role);
            var pid := t.parents[p].id;
            && Enfants(after.eleves, pid) == Enfants(t.eleves, pid) + [Eleve(|t.eleves| + 1, |t.users| + 1, Some(pid), 0)]
            && HasEnfant(Enfants(after.eleves, pid), |t.eleves| + 1)
            && after.users[|t.users|].email == req.email
            && TotalTokens(after) == TotalTokens(t)
  {
    var after := AfterAddChild(t, p, req, role);
    var pid := t.parents[p].id;
    var e := Eleve(|t.eleves| + 1, |t.users| + 1, Some(pid), 0);
    FilterAppend(t.eleves, e, (x: Eleve) => x.parentId == Some(pid));
    assert after.eleves == t.eleves + [e];
    var enfants := Enfants(after.eleves, pid);
    assert enfants[|enfants| - 1] == e;
    BalanceAppend(t.users, NewUser(t, req, role));
  }

  lemma AddChildKeepsWellFormed(t: Tables, p: nat, req: AccountRequest, role: Role)
    requires WellFormed(t) && p < |t.parents| && !EmailTaken(t.users, req.email)
    ensures WellFormed(AfterAddChild(t, p, req, role))
  {
    var users := t.users + [NewUser(t, req, role)];
    forall i, j | 0 <= i < j < |users|
      ensures users[i].email != users[j].email
    {
      if j == |t.users| {
        assert t.users[i] in t.users;
      }
    }
  }

  /**
   * AddChildToParent. `userId` is the authenticated user (None when the context has none),
   * `req` the decoded body, `hashFails` bcrypt's answer to the password. Writes: 0 child user (refused by the unique email index when
   * the email is taken), 1 eleve, 2 the Enfants association, 3 commit.
   */
  method AddChildToParent(db: Store, userId: Option<nat>, req: Option<AccountRequest>, hashFails: bool, fault: Option<nat>)
    returns (r: Result<bool>)
    requires db.Valid()
    modifies db
    ensures db.Valid()
    ensures r.Err? ==> db.tables == old(db.tables)
    ensures userId.None? ==> r == Err(Unauthenticated)
    ensures userId.Some? && (req.None? || !BindsAccount(req.value)) ==> r == Err(InvalidRequest)
    // the password is hashed before the transaction begins
    ensures userId.Some? && req.Some? && BindsAccount(req.value) && hashFails ==> r == Err(PasswordHashFailed)
    ensures (userId.Some? && req.Some? && BindsAccount(req.value) && !hashFails
             && ParentOfUser(old(db.tables.parents), userId.value).None?) ==> r == Err(ParentNotFound)
    ensures (userId.Some? && req.Some? && BindsAccount(req.value) && !hashFails
             && ParentOfUser(old(db.tables.parents), userId.value).Some? && StringToRole(req.value.role).Err?) ==>
              r == Err(StringToRole(req.value.role).error)
    ensures (userId.Some? && req.Some? && BindsAccount(req.value) && !hashFails
             && ParentOfUser(old(db.tables.parents), userId.value).Some? && StringToRole(req.value.role).Ok?
             && EmailTaken(old(db.tables.users), req.value.email)) ==> r == Err(StoreFailure)
    ensures (userId.Some? && req.Some? && BindsAccount(req.value) && !hashFails
             && ParentOfUser(old(db.tables.parents), userId.value).Some? && StringToRole(req.value.role).Ok?
             && !EmailTaken(old(db.tables.users), req.value.email) && fault.None?) ==> r.Ok?
    ensures r.Ok? ==>
              && userId.Some? && req.Some? && !hashFails && StringToRole(req.value.role).Ok?
              && ParentOfUser(old(db.tables.parents), userId.value).Some?
              && r.value
              && db.tables == AfterAddChild(old(db.tables), ParentOfUser(old(db.tables.parents), userId.value).value,
                                            req.value, StringToRole(req.value.role).value)
  {
    if userId.None? {
      return Err(Unauthenticated);
    }
    if req.None? || !BindsAccount(req.value) {
      return Err(InvalidRequest);
    }
    var rq := req.value;
    if hashFails {
      return Err(PasswordHashFailed);
    }

    var begin := db.tables;  // tx := DB.Begin()
    var p := ParentOfUser(db.tables.parents, userId.value);
    if p.None? {
      db.Rollback(begin);
      return Err(ParentNotFound);
    }
    var parent := db.tables.parents[p.value];
    var role := StringToRole(rq.role);
    if role.Err? {
      db.Rollback(begin);
      return Err(role.error);
    }

    var childUser := NewUser(db.tables, rq, role.value);
    if Fails(fault, 0) || EmailTaken(db.tables.users, rq.email) {
      db.Rollback(begin);
      return Err(StoreFailure);
    }
    db.tables := db.tables.(users := db.tables.users + [childUser]);

    var eleve := Eleve(|db.tables.eleves| + 1, childUser.id, Some(parent.id), 0);
    if Fails(fault, 1) {
      db.Rollback(begin);
      return Err(StoreFailure);
    }
    db.tables := db.tables.(eleves := db.tables.eleves + [eleve]);

    // Appending to Enfants writes the eleve's ParentID, which it already holds.
    if Fails(fault, 2) {
      db.Rollback(begin);
      return Err(StoreFailure);
    }
    if Fails(fault, 3) {
      db.Rollback(begin);
      return Err(StoreFailure);
    }
    assert db.tables == AfterAddChild(begin, p.value, rq, role.value);
    AddChildKeepsWellFormed(begin, p.value, rq, role.value);
    r := Ok(true);
  }
}
