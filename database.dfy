/**
 * The five tables the composite-create routes write (Address, Passport,
 * BankAgreement, Entrepreneur, Contributor), as their model classes reach
 * them: `create` binds its listed columns from the data object and returns
 * the new row with a fresh serial id, `update` overwrites every listed
 * column (an omitted one becomes NULL), `delete` returns the removed row.
 * Whether the database refuses a statement — a constraint, a value of the
 * wrong type — is an oracle.
 */
module Database {
  import opened Wrappers
  import opened Js
  import opened Sql
  import opened Http

  datatype Table = Address | Passport | BankAgreement | Entrepreneur | Contributor

  /** The columns each model's `create` and `update` bind, in order. */
  function Columns(t: Table): seq<string>
  {
    match t
    case Address => ["street_number", "street_name", "region", "city", "country", "zip"]
    case Passport => ["series", "number", "issue_date", "expiration_date"]
    case BankAgreement => ["document", "is_signed"]
    case Entrepreneur => ["gender", "dob", "passport_id", "address_id", "agreement_id", "startup_id"]
    case Contributor => ["gender", "dob", "passport_id", "agreement_id"]
  }

  function IdColumn(t: Table): string
  {
    match t
    case Address => "address_id"
    case Passport => "passport_id"
    case BankAgreement => "agreement_id"
    case Entrepreneur => "entrepreneur_id"
    case Contributor => "contributor_id"
  }

  /** The name of the model method's data parameter, which destructuring errors mention. */
  function ParamName(t: Table): string
  {
    match t
    case Address => "addressData"
    case Passport => "passportData"
    case BankAgreement => "agreementData"
    case Entrepreneur => "entrepreneurData"
    case Contributor => "contributorData"
  }

  /** One value per table. */
  datatype PerTable<T> = PerTable(address: T, passport: T, agreement: T, entrepreneur: T, contributor: T)
  {
    function At(t: Table): T
    {
      match t
      case Address => address
      case Passport => passport
      case BankAgreement => agreement
      case Entrepreneur => entrepreneur
      case Contributor => contributor
    }

    function With(t: Table, v: T): (p: PerTable<T>)
      ensures p.At(t) == v
      ensures forall u :: u != t ==> p.At(u) == At(u)
    {
      match t
      case Address => this.(address := v)
      case Passport => this.(passport := v)
      case BankAgreement => this.(agreement := v)
      case Entrepreneur => this.(entrepreneur := v)
      case Contributor => this.(contributor := v)
    }
  }

  /** A statement sent to the database. */
  datatype Statement =
    | InsertRow(table: Table, values: Row)
    | SelectRow(table: Table, id: int)
    | UpdateRow(table: Table, id: int, values: Row)
    | DeleteRow(table: Table, id: int)

  /** The database's refusal of a statement, if it refuses it: the error's message. */
  type Faults = Statement -> Option<string>

  /**
   * The tables' rows by id, each table's next serial id, and the log of
   * statements sent so far.
   */
  datatype Db = Db(rows: PerTable<map<int, Row>>, next: PerTable<nat>, log: seq<Statement>)

  /** Serial ids start at 1, and every stored id was handed out before the table's next one. */
  predicate Valid(db: Db)
  {
    && (forall t: Table :: db.next.At(t) >= 1)
    && (forall t: Table, id :: id in db.rows.At(t) ==> id < db.next.At(t))
  }

  const Empty: Db :=
    Db(PerTable(map[], map[], map[], map[], map[]), PerTable(1, 1, 1, 1, 1), [])

  lemma EmptyValid()
    ensures Valid(Empty)
  {
  }

  /**
   * `const { c1, c2, ... } = data`: destructuring `undefined` or `null`
   * throws; any other value yields its listed properties, `undefined` (sent
   * as NULL) where it has none.
   */
  function Bind(t: Table, data: Option<Json>): (r: Result<Row, string>)
    ensures r.Failure? <==> data.None? || data == Some(JNull)
    ensures r.Success? ==> r.value.Keys == set c | c in Columns(t)
    ensures r.Success? && data.value.JObj? ==> r.value == Project(data.value.fields, Columns(t))
  {
    if data.None? then
      Failure("Cannot destructure property '" + Columns(t)[0] + "' of '" + ParamName(t) + "' as it is undefined.")
    else if data.value.JNull? then
      Failure("Cannot destructure property '" + Columns(t)[0] + "' of '" + ParamName(t) + "' as it is null.")
    else Success(Project(if data.value.JObj? then data.value.fields else map[], Columns(t)))
  }

  /** `Model.create(data)`: INSERT ... RETURNING *. */
  function Insert(db: Db, t: Table, data: Option<Json>, faults: Faults): (r: (Db, Result<Row, string>))
    ensures r.1.Success? ==> IdColumn(t) in r.1.value && r.1.value[IdColumn(t)] == JNum(db.next.At(t))
  {
    var bound := Bind(t, data);
    if bound.Failure? then (db, Failure(bound.error))
    else
      var s := InsertRow(t, bound.value);
      var db1 := db.(log := db.log + [s]);
      if faults(s).Some? then (db1, Failure(faults(s).value))
      else
        var id := db.next.At(t);
        var row := bound.value[IdColumn(t) := JNum(id)];
        (db1.(rows := db.rows.With(t, db.rows.At(t)[id := row]), next := db.next.With(t, id + 1)), Success(row))
  }

  /** `Model.findById(param)`: SELECT ... WHERE id = $1. */
  function FindById(db: Db, t: Table, param: string, faults: Faults): (r: (Db, StoreReply))
    ensures r.0.rows == db.rows && r.0.next == db.next
    ensures r.1.Found? <==>
              ParamId(Some(param)).Success? && faults(SelectRow(t, ParamId(Some(param)).value.value)).None? &&
              ParamId(Some(param)).value.value in db.rows.At(t)
    ensures r.1.Found? ==> r.1.row == db.rows.At(t)[ParamId(Some(param)).value.value]
  {
    match ParamId(Some(param))
    case Failure(e) => (db, Failed(e))
    case Success(id) =>
      var s := SelectRow(t, id.value);
      var db1 := db.(log := db.log + [s]);
      if faults(s).Some? then (db1, Failed(faults(s).value))
      else if id.value in db.rows.At(t) then (db1, Found(db.rows.At(t)[id.value]))
      else (db1, Missing)
  }

  /** `Model.update(param, data)`: every listed column is overwritten; RETURNING *. */
  function UpdateById(db: Db, t: Table, param: string, data: Option<Json>, faults: Faults): (r: (Db, StoreReply))
    ensures r.0.next == db.next
    ensures !r.1.Found? ==> r.0.rows == db.rows
    ensures r.1.Found? <==>
              Bind(t, data).Success? && ParamId(Some(param)).Success? &&
              faults(UpdateRow(t, ParamId(Some(param)).value.value, Bind(t, data).value)).None? &&
              ParamId(Some(param)).value.value in db.rows.At(t)
    // a found row: the listed columns take the data's values, the id stays, and no other row or table changes
    ensures r.1.Found? ==>
              var id := ParamId(Some(param)).value.value;
              r.1.row == Bind(t, data).value[IdColumn(t) := JNum(id)] &&
              r.0.rows == db.rows.With(t, db.rows.At(t)[id := r.1.row])
  {
    match Bind(t, data)
    case Failure(e) => (db, Failed(e))
    case Success(values) =>
      match ParamId(Some(param))
      case Failure(e) => (db, Failed(e))
      case Success(id) =>
        var s := UpdateRow(t, id.value, values);
        var db1 := db.(log := db.log + [s]);
        if faults(s).Some? then (db1, Failed(faults(s).value))
        else if id.value in db.rows.At(t) then
          var row := values[IdColumn(t) := JNum(id.value)];
          (db1.(rows := db.rows.With(t, db.rows.At(t)[id.value := row])), Found(row))
        else (db1, Missing)
  }

  /** `Model.delete(param)`: DELETE ... RETURNING *. */
  function DeleteById(db: Db, t: Table, param: string, faults: Faults): (r: (Db, StoreReply))
    ensures r.0.next == db.next
    ensures !r.1.Found? ==> r.0.rows == db.rows
  {
    match ParamId(Some(param))
    case Failure(e) => (db, Failed(e))
    case Success(id) =>
      var s := DeleteRow(t, id.value);
      var db1 := db.(log := db.log + [s]);
      if faults(s).Some? then (db1, Failed(faults(s).value))
      else if id.value in db.rows.At(t) then
        (db1.(rows := db.rows.With(t, db.rows.At(t) - {id.value})), Found(db.rows.At(t)[id.value]))
      else (db1, Missing)
  }

  // ---------------------------------------------------------------------
  // What each statement does to the tables

  /**
   * A successful `create` stores the bound values under the table's next
   * id, which no stored row has, with that id in the id column, and touches
   * nothing else; a failed one changes no table.
   */
  lemma InsertEffect(db: Db, t: Table, data: Option<Json>, faults: Faults)
    requires Valid(db)
    ensures var (db', r) := Insert(db, t, data, faults);
            var id := db.next.At(t);
            Valid(db') &&
            (r.Success? ==>
               Bind(t, data).Success? &&
               r.value == Bind(t, data).value[IdColumn(t) := JNum(id)] &&
               id !in db.rows.At(t) &&
               db'.rows == db.rows.With(t, db.rows.At(t)[id := r.value]) &&
               db'.next == db.next.With(t, id + 1) &&
               db'.log == db.log + [InsertRow(t, Bind(t, data).value)]) &&
            (r.Failure? ==> db'.rows == db.rows && db'.next == db.next)
  {
  }

  lemma InsertValid(db: Db, t: Table, data: Option<Json>, faults: Faults)
    requires Valid(db)
    ensures Valid(Insert(db, t, data, faults).0)
  {
  }

  /** A `create` leaves every other table, and its serial, as it was. */
  lemma InsertOther(db: Db, t: Table, data: Option<Json>, faults: Faults, u: Table)
    requires u != t
    ensures Insert(db, t, data, faults).0.rows.At(u) == db.rows.At(u)
    ensures Insert(db, t, data, faults).0.next.At(u) == db.next.At(u)
  {
  }

  /** A successful `create` stores its row under the id it consumed. */
  lemma InsertStores(db: Db, t: Table, data: Option<Json>, faults: Faults)
    ensures Insert(db, t, data, faults).1.Success? ==>
              db.next.At(t) in Insert(db, t, data, faults).0.rows.At(t) &&
              Insert(db, t, data, faults).0.rows.At(t)[db.next.At(t)] == Insert(db, t, data, faults).1.value
  {
  }

  /** A `create` that reaches the database logs its INSERT, refused or not. */
  lemma InsertLog(db: Db, t: Table, data: Option<Json>, faults: Faults)
    ensures Bind(t, data).Success? ==>
              Insert(db, t, data, faults).0.log == db.log + [InsertRow(t, Bind(t, data).value)]
    ensures Bind(t, data).Failure? ==> Insert(db, t, data, faults).0 == db
  {
  }

  /** Updates keep ids serial: they neither add an id nor move a serial. */
  lemma UpdateValid(db: Db, t: Table, param: string, data: Option<Json>, faults: Faults)
    requires Valid(db)
    ensures Valid(UpdateById(db, t, param, data, faults).0)
  {
  }

  /** Deletes keep ids serial. */
  lemma DeleteValid(db: Db, t: Table, param: string, faults: Faults)
    requires Valid(db)
    ensures Valid(DeleteById(db, t, param, faults).0)
  {
  }

  /** A successful `update` replaces the row, and a column the data leaves out becomes NULL. */
  lemma UpdateOverwrites(db: Db, t: Table, param: string, fields: map<string, Json>, faults: Faults, c: string)
    requires UpdateById(db, t, param, Some(JObj(fields)), faults).1.Found?
    requires c in Columns(t) && c != IdColumn(t) && c !in fields
    ensures UpdateById(db, t, param, Some(JObj(fields)), faults).1.row[c] == JNull
  {
  }

  /** A successful `delete` removes exactly that row. */
  lemma DeleteRemoves(db: Db, t: Table, param: string, faults: Faults)
    requires DeleteById(db, t, param, faults).1.Found?
    ensures var id := ParamId(Some(param)).value.value;
            id in db.rows.At(t) &&
            DeleteById(db, t, param, faults).1.row == db.rows.At(t)[id] &&
            DeleteById(db, t, param, faults).0.rows == db.rows.With(t, db.rows.At(t) - {id})
  {
  }

  /**
   * The step both composite-create routes share: `if (bankAgreement)
   * createdAgreement = await BankAgreement.create(bankAgreement)`, then
   * `createdAgreement ? createdAgreement.agreement_id : null`. The result is
   * the `agreement_id` to link.
   */
  function CreateAgreement(db: Db, bankAgreement: Option<Json>, faults: Faults): (r: (Db, Result<Json, string>))
    ensures !Truthy(bankAgreement) ==> r == (db, Success(JNull))
    ensures Truthy(bankAgreement) ==>
              r.0 == Insert(db, BankAgreement, bankAgreement, faults).0 &&
              (r.1.Success? <==> Insert(db, BankAgreement, bankAgreement, faults).1.Success?) &&
              (r.1.Success? ==> r.1.value == JNum(db.next.At(BankAgreement)))
  {
    if !Truthy(bankAgreement) then (db, Success(JNull))
    else
      var (db1, created) := Insert(db, BankAgreement, bankAgreement, faults);
      match created
      case Failure(e) => (db1, Failure(e))
      case Success(row) => (db1, Success(row[IdColumn(BankAgreement)]))
  }

  /** The `agreement_id` a successful create links: the next agreement id, or null. */
  function LinkedAgreement(db: Db, bankAgreement: Option<Json>): Json
  {
    if Truthy(bankAgreement) then JNum(db.next.At(BankAgreement)) else JNull
  }

  /** Rows are kept: every row of `db` is still in `db'`, unchanged. */
  predicate Keeps(db: Db, db': Db)
  {
    forall t: Table, id :: id in db.rows.At(t) ==> id in db'.rows.At(t) && db'.rows.At(t)[id] == db.rows.At(t)[id]
  }

  lemma InsertKeeps(db: Db, t: Table, data: Option<Json>, faults: Faults)
    requires Valid(db)
    ensures Keeps(db, Insert(db, t, data, faults).0)
  {
    InsertEffect(db, t, data, faults);
  }

  lemma KeepsTransitive(db1: Db, db2: Db, db3: Db)
    requires Keeps(db1, db2) && Keeps(db2, db3)
    ensures Keeps(db1, db3)
  {
  }

  // ---------------------------------------------------------------------
  // Reading back

  /**
   * A row just created is found under the decimal spelling of its id, as
   * `GET /:id` asks for it (when the database does not refuse that SELECT).
   */
  lemma FindCreated(db: Db, t: Table, data: Option<Json>, faults: Faults)
    requires Insert(db, t, data, faults).1.Success?
    requires db.next.At(t) <= Int4Max
    requires faults(SelectRow(t, db.next.At(t))).None?
    ensures FindById(Insert(db, t, data, faults).0, t, NatToString(db.next.At(t)), faults).1 ==
            Found(Insert(db, t, data, faults).1.value)
  {
    ParseNatToString(db.next.At(t));
  }

  /** After an update succeeds, finding the same id gives the new row. */
  lemma FindUpdated(db: Db, t: Table, param: string, data: Option<Json>, faults: Faults)
    requires UpdateById(db, t, param, data, faults).1.Found?
    requires faults(SelectRow(t, ParamId(Some(param)).value.value)).None?
    ensures FindById(UpdateById(db, t, param, data, faults).0, t, param, faults).1 ==
            UpdateById(db, t, param, data, faults).1
  {
  }

  /** After a delete succeeds, the same id is missing. */
  lemma FindDeleted(db: Db, t: Table, param: string, faults: Faults)
    requires DeleteById(db, t, param, faults).1.Found?
    requires faults(SelectRow(t, ParamId(Some(param)).value.value)).None?
    ensures FindById(DeleteById(db, t, param, faults).0, t, param, faults).1 == Missing
  {
  }

  // ---------------------------------------------------------------------
  // The single-row routes: one store call, then the shared status mapping

  /** `GET /:id`: 200 exactly when the id parses, the SELECT is accepted and the row exists. */
  function ReadRoute(db: Db, t: Table, entity: string, param: string, faults: Faults): (r: (Db, Response))
    ensures r.0.rows == db.rows && r.0.next == db.next
    ensures r.1.status == 200 <==>
              ParamId(Some(param)).Success? && faults(SelectRow(t, ParamId(Some(param)).value.value)).None? &&
              ParamId(Some(param)).value.value in db.rows.At(t)
    ensures r.1.status == 200 ==> r.1.body == JsonBody(JObj(db.rows.At(t)[ParamId(Some(param)).value.value]))
    ensures r.1.status == 404 <==>
              ParamId(Some(param)).Success? && faults(SelectRow(t, ParamId(Some(param)).value.value)).None? &&
              ParamId(Some(param)).value.value !in db.rows.At(t)
    ensures r.1.status == 200 || r.1.status == 404 || r.1.status == 500
  {
    var (db1, reply) := FindById(db, t, param, faults);
    (db1, GetReply(reply, entity))
  }

  /** `PUT /:id`: an id that does not parse, or a refused UPDATE, is 400. */
  function UpdateRoute(db: Db, t: Table, entity: string, param: string, body: map<string, Json>, faults: Faults): (r: (Db, Response))
    ensures r.0.next == db.next
    ensures r.1.status == 200 <==>
              ParamId(Some(param)).Success? &&
              faults(UpdateRow(t, ParamId(Some(param)).value.value, Project(body, Columns(t)))).None? &&
              ParamId(Some(param)).value.value in db.rows.At(t)
    ensures r.1.status == 404 <==>
              ParamId(Some(param)).Success? &&
              faults(UpdateRow(t, ParamId(Some(param)).value.value, Project(body, Columns(t)))).None? &&
              ParamId(Some(param)).value.value !in db.rows.At(t)
    ensures r.1.status == 200 || r.1.status == 404 || r.1.status == 400
    ensures r.1.status != 200 ==> r.0.rows == db.rows
    // `res.json(updated)`: the answer is the stored row, and only that row changed
    ensures r.1.status == 200 ==>
              var id := ParamId(Some(param)).value.value;
              var row := Project(body, Columns(t))[IdColumn(t) := JNum(id)];
              r.1 == Send(200, JObj(row)) && r.0.rows == db.rows.With(t, db.rows.At(t)[id := row])
  {
    var (db1, reply) := UpdateById(db, t, param, Some(JObj(body)), faults);
    (db1, PutReply(reply, entity))
  }

  /** `DELETE /:id`: 200 with a confirmation exactly when a row was removed. */
  function RemoveRoute(db: Db, t: Table, entity: string, param: string, faults: Faults): (r: (Db, Response))
    ensures r.0.next == db.next
    ensures r.1.status == 200 <==>
              ParamId(Some(param)).Success? && faults(DeleteRow(t, ParamId(Some(param)).value.value)).None? &&
              ParamId(Some(param)).value.value in db.rows.At(t)
    ensures r.1.status == 200 ==>
              r.0.rows == db.rows.With(t, db.rows.At(t) - {ParamId(Some(param)).value.value}) &&
              r.1 == Send(200, JObj(map["message" := JStr(entity + " deleted successfully")]))
    ensures r.1.status != 200 ==> r.0.rows == db.rows
    ensures r.1.status == 200 || r.1.status == 404 || r.1.status == 500
  {
    var (db1, reply) := DeleteById(db, t, param, faults);
    (db1, DeleteReply(reply, entity))
  }

  /** A store whose tables change in place, as the database does. */
  class Store {
    var rows: PerTable<map<int, Row>>
    var next: PerTable<nat>
    var log: seq<Statement>

    function Value(): Db
      reads this
    {
      Db(rows, next, log)
    }

    constructor()
      ensures Value() == Empty
    {
      rows := Empty.rows;
      next := Empty.next;
      log := [];
    }

    method Create(t: Table, data: Option<Json>, faults: Faults) returns (created: Result<Row, string>)
      modifies this
      ensures (Value(), created) == Insert(old(Value()), t, data, faults)
    {
      var bound := Bind(t, data);
      if bound.Failure? {
        return Failure(bound.error);
      }
      var s := InsertRow(t, bound.value);
      log := log + [s];
      var refusal := faults(s);
      if refusal.Some? {
        return Failure(refusal.value);
      }
      var id := next.At(t);
      var row := bound.value[IdColumn(t) := JNum(id)];
      rows := rows.With(t, rows.At(t)[id := row]);
      next := next.With(t, id + 1);
      return Success(row);
    }

    method Find(t: Table, param: string, faults: Faults) returns (reply: StoreReply)
      modifies this
      ensures (Value(), reply) == FindById(old(Value()), t, param, faults)
    {
      var id := ParamId(Some(param));
      if id.Failure? {
        return Failed(id.error);
      }
      var s := SelectRow(t, id.value.value);
      log := log + [s];
      var refusal := faults(s);
      if refusal.Some? {
        return Failed(refusal.value);
      }
      if id.value.value in rows.At(t) {
        return Found(rows.At(t)[id.value.value]);
      }
      return Missing;
    }

    method Update(t: Table, param: string, data: Option<Json>, faults: Faults) returns (reply: StoreReply)
      modifies this
      ensures (Value(), reply) == UpdateById(old(Value()), t, param, data, faults)
    {
      var bound := Bind(t, data);
      if bound.Failure? {
        return Failed(bound.error);
      }
      var id := ParamId(Some(param));
      if id.Failure? {
        return Failed(id.error);
      }
      var k := id.value.value;
      var s := UpdateRow(t, k, bound.value);
      log := log + [s];
      var refusal := faults(s);
      if refusal.Some? {
        return Failed(refusal.value);
      }
      if k in rows.At(t) {
        var row := bound.value[IdColumn(t) := JNum(k)];
        rows := rows.With(t, rows.At(t)[k := row]);
        return Found(row);
      }
      return Missing;
    }

    method Delete(t: Table, param: string, faults: Faults) returns (reply: StoreReply)
      modifies this
      ensures (Value(), reply) == DeleteById(old(Value()), t, param, faults)
    {
      var id := ParamId(Some(param));
      if id.Failure? {
        return Failed(id.error);
      }
      var k := id.value.value;
      var s := DeleteRow(t, k);
      log := log + [s];
      var refusal := faults(s);
      if refusal.Some? {
        return Failed(refusal.value);
      }
      if k in rows.At(t) {
        var row := rows.At(t)[k];
        rows := rows.With(t, rows.At(t) - {k});
        return Found(row);
      }
      return Missing;
    }
  }
}
