/**
 * The entrepreneurs router (app/routes/entrepreneurs.js). `POST /` makes an
 * entrepreneur out of one request body in four inserts — Address, Passport,
 * the optional BankAgreement, then the Entrepreneur row linking them — with
 * no transaction around them; `GET`, `PUT` and `DELETE /:id` translate one
 * store call into a response.
 */
module EntrepreneursRoutes {
  import opened Wrappers
  import opened Js
  import opened Sql
  import opened Http
  import opened Database

  /** The keys `const { address, passport, bankAgreement, ...entrepreneurData }` takes out. */
  const Nested: set<string> := {"address", "passport", "bankAgreement"}

  /**
   * `{ ...entrepreneurData, address_id, passport_id, agreement_id }`: the rest
   * of the body, with the three links written last so that they win.
   */
  function EntrepreneurData(body: map<string, Json>, addressId: Json, passportId: Json, agreementId: Json): (d: map<string, Json>)
    ensures d.Keys == (body.Keys - Nested) + {"address_id", "passport_id", "agreement_id"}
    ensures d["address_id"] == addressId && d["passport_id"] == passportId && d["agreement_id"] == agreementId
    ensures forall k :: k in body && k !in Nested && k !in {"address_id", "passport_id", "agreement_id"} ==> d[k] == body[k]
  {
    (body - Nested)["address_id" := addressId]["passport_id" := passportId]["agreement_id" := agreementId]
  }

  /** `POST /`, on the store before the request; every failure is 400 with its message. */
  function Post(db: Db, body: map<string, Json>, faults: Faults): (r: (Db, Response))
    ensures r.1.status == 201 || r.1.status == 400
    ensures r.1.status == 201 ==> r.1.body.JsonBody? && r.1.body.json.JObj?
    ensures r.1.status == 400 ==> r.1.body.JsonBody? && r.1.body.json.JObj? && r.1.body.json.fields.Keys == {"error"}
  {
    var (db1, address) := Insert(db, Address, Get(body, "address"), faults);
    if address.Failure? then (db1, Error(400, address.error))
    else
      var (db2, passport) := Insert(db1, Passport, Get(body, "passport"), faults);
      if passport.Failure? then (db2, Error(400, passport.error))
      else
        var (db3, agreementId) := CreateAgreement(db2, Get(body, "bankAgreement"), faults);
        if agreementId.Failure? then (db3, Error(400, agreementId.error))
        else
          var data := EntrepreneurData(body, address.value["address_id"], passport.value["passport_id"], agreementId.value);
          var (db4, entrepreneur) := Insert(db3, Entrepreneur, Some(JObj(data)), faults);
          if entrepreneur.Failure? then (db4, Error(400, entrepreneur.error))
          else (db4, Send(201, JObj(entrepreneur.value)))
  }

  /** The route handler, step by step on the store. */
  method HandlePost(store: Store, body: map<string, Json>, faults: Faults) returns (resp: Response)
    modifies store
    ensures (store.Value(), resp) == Post(old(store.Value()), body, faults)
  {
    var createdAddress := store.Create(Address, Get(body, "address"), faults);
    if createdAddress.Failure? {
      return Error(400, createdAddress.error);
    }
    var createdPassport := store.Create(Passport, Get(body, "passport"), faults);
    if createdPassport.Failure? {
      return Error(400, createdPassport.error);
    }
    var createdAgreement: Option<Row> := None;
    var bankAgreement := Get(body, "bankAgreement");
    if Truthy(bankAgreement) {
      var created := store.Create(BankAgreement, bankAgreement, faults);
      if created.Failure? {
        return Error(400, created.error);
      }
      createdAgreement := Some(created.value);
    }
    var agreementId := if createdAgreement.Some? then createdAgreement.value["agreement_id"] else JNull;
    var data := EntrepreneurData(body, createdAddress.value["address_id"], createdPassport.value["passport_id"], agreementId);
    var entrepreneur := store.Create(Entrepreneur, Some(JObj(data)), faults);
    if entrepreneur.Failure? {
      return Error(400, entrepreneur.error);
    }
    return Send(201, JObj(entrepreneur.value));
  }

  // ---------------------------------------------------------------------
  // What a successful POST did

  /** The row `Entrepreneur.create` stores for the data the route builds. */
  lemma EntrepreneurRow(body: map<string, Json>, addressId: Json, passportId: Json, agreementId: Json, id: int)
    ensures var row := Project(EntrepreneurData(body, addressId, passportId, agreementId), Columns(Entrepreneur))
                         [IdColumn(Entrepreneur) := JNum(id)];
            row.Keys == (set c | c in Columns(Entrepreneur)) + {"entrepreneur_id"} &&
            row["entrepreneur_id"] == JNum(id) &&
            row["address_id"] == addressId && row["passport_id"] == passportId && row["agreement_id"] == agreementId &&
            (forall c :: c in {"gender", "dob", "startup_id"} ==> row[c] == if c in body then body[c] else JNull)
  {
    var data := EntrepreneurData(body, addressId, passportId, agreementId);
    var values := Project(data, Columns(Entrepreneur));
    assert Columns(Entrepreneur)[3] == "address_id" && Columns(Entrepreneur)[2] == "passport_id";
    assert Columns(Entrepreneur)[4] == "agreement_id";
    assert values["address_id"] == addressId && values["passport_id"] == passportId && values["agreement_id"] == agreementId;
    forall c | c in {"gender", "dob", "startup_id"}
      ensures values[IdColumn(Entrepreneur) := JNum(id)][c] == if c in body then body[c] else JNull
    {
      OwnColumn(body, addressId, passportId, agreementId, c);
    }
  }

  /** A column of the entrepreneur's own comes from the body: no link or nested key shadows it. */
  lemma OwnColumn(body: map<string, Json>, addressId: Json, passportId: Json, agreementId: Json, c: string)
    requires c in {"gender", "dob", "startup_id"}
    ensures c in Columns(Entrepreneur) && c != IdColumn(Entrepreneur)
    ensures Project(EntrepreneurData(body, addressId, passportId, agreementId), Columns(Entrepreneur))[c] ==
            if c in body then body[c] else JNull
  {
    assert |c| == 3 || |c| == 6 || |c| == 10;
    assert c !in Nested && c !in {"address_id", "passport_id", "agreement_id"};
    assert c == Columns(Entrepreneur)[0] || c == Columns(Entrepreneur)[1] || c == Columns(Entrepreneur)[5];
  }

  /**
   * A successful POST step by step: the ids it hands out are the tables'
   * next ids, the agreement link is that id or null, and the entrepreneur
   * row is the one `Entrepreneur.create` binds from the route's data.
   */
  lemma {:induction false} Created(db: Db, body: map<string, Json>, faults: Faults)
    returns (db1: Db, db2: Db, db3: Db, data: map<string, Json>, row: Row)
    requires Valid(db)
    requires Post(db, body, faults).1.status == 201
    ensures Valid(db1) && Valid(db2) && Valid(db3)
    ensures Insert(db, Address, Get(body, "address"), faults).1.Success?
    ensures db1 == Insert(db, Address, Get(body, "address"), faults).0
    ensures Insert(db1, Passport, Get(body, "passport"), faults).1.Success?
    ensures db2 == Insert(db1, Passport, Get(body, "passport"), faults).0
    ensures db3 == CreateAgreement(db2, Get(body, "bankAgreement"), faults).0
    ensures !Truthy(Get(body, "bankAgreement")) ==> db3 == db2
    ensures Truthy(Get(body, "bankAgreement")) ==> Insert(db2, BankAgreement, Get(body, "bankAgreement"), faults).1.Success?
    ensures db1.next.At(Passport) == db.next.At(Passport)
    ensures db2.next.At(BankAgreement) == db.next.At(BankAgreement)
    ensures db3.next.At(Entrepreneur) == db.next.At(Entrepreneur)
    ensures data == EntrepreneurData(body, JNum(db.next.At(Address)), JNum(db.next.At(Passport)), LinkedAgreement(db, Get(body, "bankAgreement")))
    ensures Insert(db3, Entrepreneur, Some(JObj(data)), faults).1 == Success(row)
    ensures Post(db, body, faults) == (Insert(db3, Entrepreneur, Some(JObj(data)), faults).0, Send(201, JObj(row)))
  {
    var r1 := Insert(db, Address, Get(body, "address"), faults);
    InsertEffect(db, Address, Get(body, "address"), faults);
    db1 := r1.0;
    var r2 := Insert(db1, Passport, Get(body, "passport"), faults);
    InsertEffect(db1, Passport, Get(body, "passport"), faults);
    db2 := r2.0;
    var r3 := CreateAgreement(db2, Get(body, "bankAgreement"), faults);
    InsertEffect(db2, BankAgreement, Get(body, "bankAgreement"), faults);
    db3 := r3.0;
    data := EntrepreneurData(body, r1.1.value["address_id"], r2.1.value["passport_id"], r3.1.value);
    row := Insert(db3, Entrepreneur, Some(JObj(data)), faults).1.value;
  }

  /**
   * The statements a successful POST sends, in order: Address, Passport,
   * BankAgreement only when `bankAgreement` is truthy, then Entrepreneur.
   */
  lemma {:induction false} CreatesInOrder(db: Db, body: map<string, Json>, faults: Faults)
    requires Valid(db)
    requires Post(db, body, faults).1.status == 201
    ensures Bind(Address, Get(body, "address")).Success? && Bind(Passport, Get(body, "passport")).Success?
    ensures Truthy(Get(body, "bankAgreement")) ==> Bind(BankAgreement, Get(body, "bankAgreement")).Success?
    ensures Post(db, body, faults).0.log ==
              db.log
              + [InsertRow(Address, Bind(Address, Get(body, "address")).value),
                 InsertRow(Passport, Bind(Passport, Get(body, "passport")).value)]
              + (if Truthy(Get(body, "bankAgreement"))
                 then [InsertRow(BankAgreement, Bind(BankAgreement, Get(body, "bankAgreement")).value)]
                 else [])
              + [InsertRow(Entrepreneur, Project(EntrepreneurData(body, JNum(db.next.At(Address)), JNum(db.next.At(Passport)),
                                                                  LinkedAgreement(db, Get(body, "bankAgreement"))),
                                                 Columns(Entrepreneur)))]
  {
    var db1, db2, db3, data, row := Created(db, body, faults);
    StepsLog(db, body, faults);
    InsertLog(db3, Entrepreneur, Some(JObj(data)), faults);
  }

  /** What the first three steps log when the first two succeed. */
  lemma StepsLog(db: Db, body: map<string, Json>, faults: Faults)
    requires Insert(db, Address, Get(body, "address"), faults).1.Success?
    requires Insert(Insert(db, Address, Get(body, "address"), faults).0, Passport, Get(body, "passport"), faults).1.Success?
    ensures Bind(Address, Get(body, "address")).Success? && Bind(Passport, Get(body, "passport")).Success?
    ensures Truthy(Get(body, "bankAgreement")) && CreateAgreement(Insert(Insert(db, Address, Get(body, "address"), faults).0, Passport, Get(body, "passport"), faults).0, Get(body, "bankAgreement"), faults).1.Success? ==>
              Bind(BankAgreement, Get(body, "bankAgreement")).Success?
    ensures var db2 := Insert(Insert(db, Address, Get(body, "address"), faults).0, Passport, Get(body, "passport"), faults).0;
            CreateAgreement(db2, Get(body, "bankAgreement"), faults).0.log ==
              db.log
              + [InsertRow(Address, Bind(Address, Get(body, "address")).value),
                 InsertRow(Passport, Bind(Passport, Get(body, "passport")).value)]
              + (if Truthy(Get(body, "bankAgreement")) && Bind(BankAgreement, Get(body, "bankAgreement")).Success?
                 then [InsertRow(BankAgreement, Bind(BankAgreement, Get(body, "bankAgreement")).value)]
                 else [])
  {
    var db1 := Insert(db, Address, Get(body, "address"), faults).0;
    var db2 := Insert(db1, Passport, Get(body, "passport"), faults).0;
    InsertLog(db, Address, Get(body, "address"), faults);
    InsertLog(db1, Passport, Get(body, "passport"), faults);
    InsertLog(db2, BankAgreement, Get(body, "bankAgreement"), faults);
    var a := InsertRow(Address, Bind(Address, Get(body, "address")).value);
    var b := InsertRow(Passport, Bind(Passport, Get(body, "passport")).value);
    assert db.log + [a] + [b] == db.log + [a, b];
  }

  /**
   * The new entrepreneur is stored under the table's next id and links the
   * address and passport rows created just before it, whatever ids the body
   * carried under those keys; its own columns come from the body, NULL where
   * the body has none.
   */
  lemma {:induction false} LinksCreatedRows(db: Db, body: map<string, Json>, faults: Faults)
    returns (row: Row)
    requires Valid(db)
    requires Post(db, body, faults).1.status == 201
    ensures Post(db, body, faults).1 == Send(201, JObj(row))
    ensures var db' := Post(db, body, faults).0;
            db.next.At(Entrepreneur) in db'.rows.At(Entrepreneur) &&
            db'.rows.At(Entrepreneur)[db.next.At(Entrepreneur)] == row &&
            db.next.At(Address) in db'.rows.At(Address) && db.next.At(Passport) in db'.rows.At(Passport)
    ensures row.Keys == (set c | c in Columns(Entrepreneur)) + {"entrepreneur_id"}
    ensures row["entrepreneur_id"] == JNum(db.next.At(Entrepreneur))
    ensures row["address_id"] == JNum(db.next.At(Address)) && row["passport_id"] == JNum(db.next.At(Passport))
    ensures row["agreement_id"] == LinkedAgreement(db, Get(body, "bankAgreement"))
    ensures forall c :: c in {"gender", "dob", "startup_id"} ==> row[c] == if c in body then body[c] else JNull
  {
    var db1, db2, db3, data;
    db1, db2, db3, data, row := Created(db, body, faults);
    InsertEffect(db, Address, Get(body, "address"), faults);
    InsertEffect(db1, Passport, Get(body, "passport"), faults);
    InsertKeeps(db1, Passport, Get(body, "passport"), faults);
    InsertKeeps(db2, BankAgreement, Get(body, "bankAgreement"), faults);
    InsertKeeps(db3, Entrepreneur, Some(JObj(data)), faults);
    InsertEffect(db3, Entrepreneur, Some(JObj(data)), faults);
    EntrepreneurRow(body, JNum(db.next.At(Address)), JNum(db.next.At(Passport)), LinkedAgreement(db, Get(body, "bankAgreement")), db.next.At(Entrepreneur));
  }

  /**
   * `agreement_id` is null exactly when no truthy `bankAgreement` was sent,
   * and then the BankAgreement table is untouched; otherwise it names the
   * agreement row created for this request.
   */
  lemma {:induction false} AgreementOnlyWhenSupplied(db: Db, body: map<string, Json>, faults: Faults)
    requires Valid(db)
    requires Post(db, body, faults).1.status == 201
    ensures var (db', resp) := Post(db, body, faults);
            resp.body.JsonBody? && resp.body.json.JObj? && "agreement_id" in resp.body.json.fields &&
            (resp.body.json.fields["agreement_id"] == JNull <==> !Truthy(Get(body, "bankAgreement"))) &&
            (!Truthy(Get(body, "bankAgreement")) ==>
               db'.rows.At(BankAgreement) == db.rows.At(BankAgreement) &&
               db'.next.At(BankAgreement) == db.next.At(BankAgreement)) &&
            (Truthy(Get(body, "bankAgreement")) ==>
               resp.body.json.fields["agreement_id"] == JNum(db.next.At(BankAgreement)) &&
               db.next.At(BankAgreement) in db'.rows.At(BankAgreement))
  {
    var row := LinksCreatedRows(db, body, faults);
    var db1, db2, db3, data, row' := Created(db, body, faults);
    InsertOther(db, Address, Get(body, "address"), faults, BankAgreement);
    InsertOther(db1, Passport, Get(body, "passport"), faults, BankAgreement);
    InsertOther(db3, Entrepreneur, Some(JObj(data)), faults, BankAgreement);
    if Truthy(Get(body, "bankAgreement")) {
      InsertStores(db2, BankAgreement, Get(body, "bankAgreement"), faults);
    }
  }

  /** The steps after the passport insert keep every row the store then holds. */
  lemma {:induction false} KeepsAfterPassport(db: Db, body: map<string, Json>, faults: Faults)
    requires Valid(db)
    requires Insert(db, Address, Get(body, "address"), faults).1.Success?
    ensures Keeps(Insert(Insert(db, Address, Get(body, "address"), faults).0, Passport, Get(body, "passport"), faults).0,
                  Post(db, body, faults).0)
  {
    var (db1, address) := Insert(db, Address, Get(body, "address"), faults);
    InsertValid(db, Address, Get(body, "address"), faults);
    var (db2, passport) := Insert(db1, Passport, Get(body, "passport"), faults);
    InsertValid(db1, Passport, Get(body, "passport"), faults);
    if passport.Success? {
      var (db3, agreementId) := CreateAgreement(db2, Get(body, "bankAgreement"), faults);
      InsertValid(db2, BankAgreement, Get(body, "bankAgreement"), faults);
      InsertKeeps(db2, BankAgreement, Get(body, "bankAgreement"), faults);
      if agreementId.Success? {
        var data := EntrepreneurData(body, address.value["address_id"], passport.value["passport_id"], agreementId.value);
        InsertKeeps(db3, Entrepreneur, Some(JObj(data)), faults);
        KeepsTransitive(db2, db3, Insert(db3, Entrepreneur, Some(JObj(data)), faults).0);
      }
    }
  }

  /** The steps after the address insert keep every row the store then holds. */
  lemma {:induction false} KeepsAfterAddress(db: Db, body: map<string, Json>, faults: Faults)
    requires Valid(db)
    ensures Keeps(Insert(db, Address, Get(body, "address"), faults).0, Post(db, body, faults).0)
  {
    var (db1, address) := Insert(db, Address, Get(body, "address"), faults);
    if address.Success? {
      InsertValid(db, Address, Get(body, "address"), faults);
      InsertKeeps(db1, Passport, Get(body, "passport"), faults);
      KeepsAfterPassport(db, body, faults);
      KeepsTransitive(db1, Insert(db1, Passport, Get(body, "passport"), faults).0, Post(db, body, faults).0);
    }
  }

  /**
   * No rollback: a POST never removes or changes an existing row, and the
   * address and passport rows it manages to create stay even when a later
   * step fails and the answer is 400.
   */
  lemma {:induction false} NoRollback(db: Db, body: map<string, Json>, faults: Faults)
    requires Valid(db)
    ensures Keeps(db, Post(db, body, faults).0)
    ensures Insert(db, Address, Get(body, "address"), faults).1.Success? ==>
              db.next.At(Address) in Post(db, body, faults).0.rows.At(Address)
    ensures Insert(db, Address, Get(body, "address"), faults).1.Success? &&
            Insert(Insert(db, Address, Get(body, "address"), faults).0, Passport, Get(body, "passport"), faults).1.Success? ==>
              db.next.At(Passport) in Post(db, body, faults).0.rows.At(Passport)
  {
    var db1 := Insert(db, Address, Get(body, "address"), faults).0;
    InsertKeeps(db, Address, Get(body, "address"), faults);
    KeepsAfterAddress(db, body, faults);
    KeepsTransitive(db, db1, Post(db, body, faults).0);
    InsertStores(db, Address, Get(body, "address"), faults);
    if Insert(db, Address, Get(body, "address"), faults).1.Success? {
      KeepsAfterPassport(db, body, faults);
      InsertStores(db1, Passport, Get(body, "passport"), faults);
      InsertOther(db, Address, Get(body, "address"), faults, Passport);
    }
  }

  /** Round trip: `GET /:id` with the new id reads back what the POST answered. */
  lemma {:induction false} ReadBackCreated(db: Db, body: map<string, Json>, faults: Faults)
    requires Valid(db)
    requires Post(db, body, faults).1.status == 201
    requires db.next.At(Entrepreneur) <= Int4Max
    requires faults(SelectRow(Entrepreneur, db.next.At(Entrepreneur))).None?
    ensures GetById(Post(db, body, faults).0, NatToString(db.next.At(Entrepreneur)), faults).1 ==
            Send(200, Post(db, body, faults).1.body.json)
  {
    var row := LinksCreatedRows(db, body, faults);
    ParseNatToString(db.next.At(Entrepreneur));
  }

  // ---------------------------------------------------------------------
  // GET, PUT and DELETE /:id

  function GetById(db: Db, param: string, faults: Faults): (r: (Db, Response))
  {
    ReadRoute(db, Entrepreneur, "Entrepreneur", param, faults)
  }

  method HandleGet(store: Store, param: string, faults: Faults) returns (resp: Response)
    modifies store
    ensures (store.Value(), resp) == GetById(old(store.Value()), param, faults)
  {
    var entrepreneur := store.Find(Entrepreneur, param, faults);
    resp := GetReply(entrepreneur, "Entrepreneur");
  }

  method HandlePut(store: Store, param: string, body: map<string, Json>, faults: Faults) returns (resp: Response)
    modifies store
    ensures (store.Value(), resp) == UpdateRoute(old(store.Value()), Entrepreneur, "Entrepreneur", param, body, faults)
  {
    var entrepreneur := store.Update(Entrepreneur, param, Some(JObj(body)), faults);
    resp := PutReply(entrepreneur, "Entrepreneur");
  }

  method HandleDelete(store: Store, param: string, faults: Faults) returns (resp: Response)
    modifies store
    ensures (store.Value(), resp) == RemoveRoute(old(store.Value()), Entrepreneur, "Entrepreneur", param, faults)
  {
    var entrepreneur := store.Delete(Entrepreneur, param, faults);
    resp := DeleteReply(entrepreneur, "Entrepreneur");
  }
}
