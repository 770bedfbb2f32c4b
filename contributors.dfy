/**
 * The contributors router (app/routes/contributors.js). `POST /` makes a
 * contributor out of one request body in up to three inserts — Passport,
 * the optional BankAgreement, then the Contributor row linking them; no
 * address is made — with no transaction around them; `GET`, `PUT` and
 * `DELETE /:id` translate one store call into a response.
 */
module ContributorsRoutes {
  import opened Wrappers
  import opened Js
  import opened Sql
  import opened Http
  import opened Database

  /** The keys `const { passport, bankAgreement, ...contributorData }` takes out. */
  const Nested: set<string> := {"passport", "bankAgreement"}

  /**
   * `{ ...contributorData, passport_id, agreement_id }`: the rest of the
   * body, with the two links written last so that they win.
   */
  function ContributorData(body: map<string, Json>, passportId: Json, agreementId: Json): (d: map<string, Json>)
    ensures d.Keys == (body.Keys - Nested) + {"passport_id", "agreement_id"}
    ensures d["passport_id"] == passportId && d["agreement_id"] == agreementId
    ensures forall k :: k in body && k !in Nested && k !in {"passport_id", "agreement_id"} ==> d[k] == body[k]
  {
    (body - Nested)["passport_id" := passportId]["agreement_id" := agreementId]
  }

  /** `POST /`, on the store before the request; every failure is 400 with its message. */
  function Post(db: Db, body: map<string, Json>, faults: Faults): (r: (Db, Response))
    ensures r.1.status == 201 || r.1.status == 400
    ensures r.1.status == 201 ==> r.1.body.JsonBody? && r.1.body.json.JObj?
    ensures r.1.status == 400 ==> r.1.body.JsonBody? && r.1.body.json.JObj? && r.1.body.json.fields.Keys == {"error"}
  {
    var (db1, passport) := Insert(db, Passport, Get(body, "passport"), faults);
    if passport.Failure? then (db1, Error(400, passport.error))
    else
      var (db2, agreementId) := CreateAgreement(db1, Get(body, "bankAgreement"), faults);
      if agreementId.Failure? then (db2, Error(400, agreementId.error))
      else
        var data := ContributorData(body, passport.value["passport_id"], agreementId.value);
        var (db3, contributor) := Insert(db2, Contributor, Some(JObj(data)), faults);
        if contributor.Failure? then (db3, Error(400, contributor.error))
        else (db3, Send(201, JObj(contributor.value)))
  }

  /** The route handler, step by step on the store. */
  method HandlePost(store: Store, body: map<string, Json>, faults: Faults) returns (resp: Response)
    modifies store
    ensures (store.Value(), resp) == Post(old(store.Value()), body, faults)
  {
    var createdPassport := store.Create(Passport, Get(body, "passport"), faults);
    if createdPassport.Failure? {
      return Error(400, createdPassport.error);
    }
    var createdAgreement: Option<Row> := None;
    var bankAgreement := Get(body, "bankAgreement");
    if Truthy(bankAgreement) {
      var created := store.Create(BankAgreement, bankAgreement, faults);
      if created.Failure? {
        return Error(400, created.error);
      }
      createdAgreement := Some(created.value);
    }
    var agreementId := if createdAgreement.Some? then createdAgreement.value["agreement_id"] else JNull;
    var data := ContributorData(body, createdPassport.value["passport_id"], agreementId);
    var contributor := store.Create(Contributor, Some(JObj(data)), faults);
    if contributor.Failure? {
      return Error(400, contributor.error);
    }
    return Send(201, JObj(contributor.value));
  }

  // ---------------------------------------------------------------------
  // What a successful POST did

  /** The row `Contributor.create` stores for the data the route builds. */
  lemma ContributorRow(body: map<string, Json>, passportId: Json, agreementId: Json, id: int)
    ensures var row := Project(ContributorData(body, passportId, agreementId), Columns(Contributor))
                         [IdColumn(Contributor) := JNum(id)];
            row.Keys == (set c | c in Columns(Contributor)) + {"contributor_id"} &&
            row["contributor_id"] == JNum(id) &&
            row["passport_id"] == passportId && row["agreement_id"] == agreementId &&
            (forall c :: c in {"gender", "dob"} ==> row[c] == if c in body then body[c] else JNull)
  {
    var data := ContributorData(body, passportId, agreementId);
    var values := Project(data, Columns(Contributor));
    assert Columns(Contributor)[2] == "passport_id" && Columns(Contributor)[3] == "agreement_id";
    assert values["passport_id"] == passportId && values["agreement_id"] == agreementId;
    forall c | c in {"gender", "dob"}
      ensures values[IdColumn(Contributor) := JNum(id)][c] == if c in body then body[c] else JNull
    {
      OwnColumn(body, passportId, agreementId, c);
    }
  }

  /** A column of the contributor's own comes from the body: no link or nested key shadows it. */
  lemma OwnColumn(body: map<string, Json>, passportId: Json, agreementId: Json, c: string)
    requires c in {"gender", "dob"}
    ensures c in Columns(Contributor) && c != IdColumn(Contributor)
    ensures Project(ContributorData(body, passportId, agreementId), Columns(Contributor))[c] ==
            if c in body then body[c] else JNull
  {
    assert |c| == 3 || |c| == 6;
    assert c !in Nested && c !in {"passport_id", "agreement_id"};
    assert c == Columns(Contributor)[0] || c == Columns(Contributor)[1];
  }

  /**
   * A successful POST step by step: the ids it hands out are the tables'
   * next ids, the agreement link is that id or null, and the contributor
   * row is the one `Contributor.create` binds from the route's data.
   */
  lemma {:induction false} Created(db: Db, body: map<string, Json>, faults: Faults)
    returns (db1: Db, db2: Db, data: map<string, Json>, row: Row)
    requires Valid(db)
    requires Post(db, body, faults).1.status == 201
    ensures Valid(db1) && Valid(db2)
    ensures Insert(db, Passport, Get(body, "passport"), faults).1.Success?
    ensures db1 == Insert(db, Passport, Get(body, "passport"), faults).0
    ensures db2 == CreateAgreement(db1, Get(body, "bankAgreement"), faults).0
    ensures !Truthy(Get(body, "bankAgreement")) ==> db2 == db1
    ensures Truthy(Get(body, "bankAgreement")) ==> Insert(db1, BankAgreement, Get(body, "bankAgreement"), faults).1.Success?
    ensures db1.next.At(BankAgreement) == db.next.At(BankAgreement)
    ensures db2.next.At(Contributor) == db.next.At(Contributor)
    ensures data == ContributorData(body, JNum(db.next.At(Passport)), LinkedAgreement(db, Get(body, "bankAgreement")))
    ensures Insert(db2, Contributor, Some(JObj(data)), faults).1 == Success(row)
    ensures Post(db, body, faults) == (Insert(db2, Contributor, Some(JObj(data)), faults).0, Send(201, JObj(row)))
  {
    var r1 := Insert(db, Passport, Get(body, "passport"), faults);
    InsertEffect(db, Passport, Get(body, "passport"), faults);
    db1 := r1.0;
    var r2 := CreateAgreement(db1, Get(body, "bankAgreement"), faults);
    InsertEffect(db1, BankAgreement, Get(body, "bankAgreement"), faults);
    db2 := r2.0;
    data := ContributorData(body, r1.1.value["passport_id"], r2.1.value);
    row := Insert(db2, Contributor, Some(JObj(data)), faults).1.value;
  }

  /**
   * The statements a successful POST sends, in order: Passport,
   * BankAgreement only when `bankAgreement` is truthy, then Contributor —
   * and no Address.
   */
  lemma {:induction false} CreatesInOrder(db: Db, body: map<string, Json>, faults: Faults)
    requires Valid(db)
    requires Post(db, body, faults).1.status == 201
    ensures Bind(Passport, Get(body, "passport")).Success?
    ensures Truthy(Get(body, "bankAgreement")) ==> Bind(BankAgreement, Get(body, "bankAgreement")).Success?
    ensures Post(db, body, faults).0.log ==
              db.log
              + [InsertRow(Passport, Bind(Passport, Get(body, "passport")).value)]
              + (if Truthy(Get(body, "bankAgreement"))
                 then [InsertRow(BankAgreement, Bind(BankAgreement, Get(body, "bankAgreement")).value)]
                 else [])
              + [InsertRow(Contributor, Project(ContributorData(body, JNum(db.next.At(Passport)),
                                                                LinkedAgreement(db, Get(body, "bankAgreement"))),
                                                Columns(Contributor)))]
    ensures Post(db, body, faults).0.rows.At(Address) == db.rows.At(Address)
  {
    var db1, db2, data, row := Created(db, body, faults);
    InsertLog(db, Passport, Get(body, "passport"), faults);
    InsertLog(db1, BankAgreement, Get(body, "bankAgreement"), faults);
    InsertLog(db2, Contributor, Some(JObj(data)), faults);
    InsertOther(db, Passport, Get(body, "passport"), faults, Address);
    InsertOther(db1, BankAgreement, Get(body, "bankAgreement"), faults, Address);
    InsertOther(db2, Contributor, Some(JObj(data)), faults, Address);
    var agreement := if Truthy(Get(body, "bankAgreement"))
                     then [InsertRow(BankAgreement, Bind(BankAgreement, Get(body, "bankAgreement")).value)]
                     else [];
    var p := InsertRow(Passport, Bind(Passport, Get(body, "passport")).value);
    assert db2.log == db.log + [p] + agreement;
  }

  /**
   * The new contributor is stored under the table's next id and links the
   * passport row created just before it, whatever id the body carried under
   * `passport_id`; its own columns come from the body, NULL where the body
   * has none.
   */
  lemma {:induction false} LinksCreatedRows(db: Db, body: map<string, Json>, faults: Faults)
    returns (row: Row)
    requires Valid(db)
    requires Post(db, body, faults).1.status == 201
    ensures Post(db, body, faults).1 == Send(201, JObj(row))
    ensures var db' := Post(db, body, faults).0;
            db.next.At(Contributor) in db'.rows.At(Contributor) &&
            db'.rows.At(Contributor)[db.next.At(Contributor)] == row &&
            db.next.At(Passport) in db'.rows.At(Passport)
    ensures row.Keys == (set c | c in Columns(Contributor)) + {"contributor_id"}
    ensures row["contributor_id"] == JNum(db.next.At(Contributor))
    ensures row["passport_id"] == JNum(db.next.At(Passport))
    ensures row["agreement_id"] == LinkedAgreement(db, Get(body, "bankAgreement"))
    ensures forall c :: c in {"gender", "dob"} ==> row[c] == if c in body then body[c] else JNull
  {
    var db1, db2, data;
    db1, db2, data, row := Created(db, body, faults);
    InsertStores(db, Passport, Get(body, "passport"), faults);
    InsertKeeps(db1, BankAgreement, Get(body, "bankAgreement"), faults);
    InsertKeeps(db2, Contributor, Some(JObj(data)), faults);
    InsertStores(db2, Contributor, Some(JObj(data)), faults);
    InsertEffect(db2, Contributor, Some(JObj(data)), faults);
    ContributorRow(body, JNum(db.next.At(Passport)), LinkedAgreement(db, Get(body, "bankAgreement")), db.next.At(Contributor));
  }

  /**
   * `agreement_id` is null exactly when no truthy `bankAgreement` was sent,
   * and then the BankAgreement table is untouched; otherwise it names the
   * agreement row created for this request.
   */
  lemma {:induction false} AgreementOnlyWhenSupplied(db: Db, body: map<string, Json>, faults: Faults)
    requires Valid(db)
    requires Post(db, body, faults).1.status == 201
    ensures var (db', resp) := Post(db, body, faults);
            resp.body.JsonBody? && resp.body.json.JObj? && "agreement_id" in resp.body.json.fields &&
            (resp.body.json.fields["agreement_id"] == JNull <==> !Truthy(Get(body, "bankAgreement"))) &&
            (!Truthy(Get(body, "bankAgreement")) ==>
               db'.rows.At(BankAgreement) == db.rows.At(BankAgreement) &&
               db'.next.At(BankAgreement) == db.next.At(BankAgreement)) &&
            (Truthy(Get(body, "bankAgreement")) ==>
               resp.body.json.fields["agreement_id"] == JNum(db.next.At(BankAgreement)) &&
               db.next.At(BankAgreement) in db'.rows.At(BankAgreement))
  {
    var row := LinksCreatedRows(db, body, faults);
    var db1, db2, data, row' := Created(db, body, faults);
    InsertOther(db, Passport, Get(body, "passport"), faults, BankAgreement);
    InsertOther(db2, Contributor, Some(JObj(data)), faults, BankAgreement);
    if Truthy(Get(body, "bankAgreement")) {
      InsertStores(db1, BankAgreement, Get(body, "bankAgreement"), faults);
    }
  }

  /** The steps after the passport insert keep every row the store then holds. */
  lemma {:induction false} KeepsAfterPassport(db: Db, body: map<string, Json>, faults: Faults)
    requires Valid(db)
    ensures Keeps(Insert(db, Passport, Get(body, "passport"), faults).0, Post(db, body, faults).0)
  {
    var (db1, passport) := Insert(db, Passport, Get(body, "passport"), faults);
    InsertValid(db, Passport, Get(body, "passport"), faults);
    if passport.Success? {
      var (db2, agreementId) := CreateAgreement(db1, Get(body, "bankAgreement"), faults);
      InsertValid(db1, BankAgreement, Get(body, "bankAgreement"), faults);
      InsertKeeps(db1, BankAgreement, Get(body, "bankAgreement"), faults);
      if agreementId.Success? {
        var data := ContributorData(body, passport.value["passport_id"], agreementId.value);
        InsertKeeps(db2, Contributor, Some(JObj(data)), faults);
        KeepsTransitive(db1, db2, Insert(db2, Contributor, Some(JObj(data)), faults).0);
      }
    }
  }

  /**
   * No rollback: a POST never removes or changes an existing row, and the
   * passport row it manages to create stays even when a later step fails
   * and the answer is 400.
   */
  lemma {:induction false} NoRollback(db: Db, body: map<string, Json>, faults: Faults)
    requires Valid(db)
    ensures Keeps(db, Post(db, body, faults).0)
    ensures Insert(db, Passport, Get(body, "passport"), faults).1.Success? ==>
              db.next.At(Passport) in Post(db, body, faults).0.rows.At(Passport)
  {
    var db1 := Insert(db, Passport, Get(body, "passport"), faults).0;
    InsertKeeps(db, Passport, Get(body, "passport"), faults);
    KeepsAfterPassport(db, body, faults);
    KeepsTransitive(db, db1, Post(db, body, faults).0);
    InsertStores(db, Passport, Get(body, "passport"), faults);
  }

  /** Round trip: `GET /:id` with the new id reads back what the POST answered. */
  lemma {:induction false} ReadBackCreated(db: Db, body: map<string, Json>, faults: Faults)
    requires Valid(db)
    requires Post(db, body, faults).1.status == 201
    requires db.next.At(Contributor) <= Int4Max
    requires faults(SelectRow(Contributor, db.next.At(Contributor))).None?
    ensures GetById(Post(db, body, faults).0, NatToString(db.next.At(Contributor)), faults).1 ==
            Send(200, Post(db, body, faults).1.body.json)
  {
    var row := LinksCreatedRows(db, body, faults);
    ParseNatToString(db.next.At(Contributor));
  }

  // ---------------------------------------------------------------------
  // GET, PUT and DELETE /:id

  function GetById(db: Db, param: string, faults: Faults): (r: (Db, Response))
  {
    ReadRoute(db, Contributor, "Contributor", param, faults)
  }

  method HandleGet(store: Store, param: string, faults: Faults) returns (resp: Response)
    modifies store
    ensures (store.Value(), resp) == GetById(old(store.Value()), param, faults)
  {
    var contributor := store.Find(Contributor, param, faults);
    resp := GetReply(contributor, "Contributor");
  }

  method HandlePut(store: Store, param: string, body: map<string, Json>, faults: Faults) returns (resp: Response)
    modifies store
    ensures (store.Value(), resp) == UpdateRoute(old(store.Value()), Contributor, "Contributor", param, body, faults)
  {
    var contributor := store.Update(Contributor, param, Some(JObj(body)), faults);
    resp := PutReply(contributor, "Contributor");
  }

  method HandleDelete(store: Store, param: string, faults: Faults) returns (resp: Response)
    modifies store
    ensures (store.Value(), resp) == RemoveRoute(old(store.Value()), Contributor, "Contributor", param, faults)
  {
    var contributor := store.Delete(Contributor, param, faults);
    resp := DeleteReply(contributor, "Contributor");
  }
}
