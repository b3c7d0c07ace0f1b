/**
 * The `Usuario` domain object: one account's columns as public properties, loaded
 * from its `usuarios` row and written back by an UPDATE built from the properties
 * that are set.
 */
module UsuarioDomain {
  import opened Wrappers
  import opened Php
  import opened Sql
  import opened Schema
  import Seqs

  /** The nine properties of a `Usuario`, as values. */
  datatype UserRecord = UserRecord(
    email: Value, contrasena: Value, tipo: Value, nombre: Value, fechaNacimiento: Value,
    sexo: Value, corrOcular: Value, fechaRevOcular: Value, avatarUrl: Value)

  /** The properties in declaration order, under their column names. */
  function RecordProps(r: UserRecord): (props: seq<Prop>)
    ensures |props| == 9 && DistinctNames(props)
  {
    [Prop("email", r.email), Prop("contrasena", r.contrasena), Prop("tipo", r.tipo),
     Prop("nombre", r.nombre), Prop("fecha_nacimiento", r.fechaNacimiento), Prop("sexo", r.sexo),
     Prop("corr_ocular", r.corrOcular), Prop("fecha_rev_ocular", r.fechaRevOcular),
     Prop("avatar_url", r.avatarUrl)]
  }

  /** What `load` copies out of a fetched row. */
  function Loaded(row: UserRow): UserRecord
  {
    UserRecord(Fetched(row.email), Fetched(row.contrasena), Fetched(row.tipo), Fetched(row.nombre),
               Fetched(row.fechaNacimiento), Fetched(row.sexo), Fetched(row.corrOcular),
               Fetched(row.fechaRevOcular), Fetched(row.avatarUrl))
  }

  /** A matched row after `save`. */
  function Written(row: UserRow, r: UserRecord): UserRow
  {
    UserRow(Overwrite(row.email, r.email), Overwrite(row.contrasena, r.contrasena), Overwrite(row.tipo, r.tipo),
            Overwrite(row.nombre, r.nombre), Overwrite(row.fechaNacimiento, r.fechaNacimiento),
            Overwrite(row.sexo, r.sexo), Overwrite(row.corrOcular, r.corrOcular),
            Overwrite(row.fechaRevOcular, r.fechaRevOcular), Overwrite(row.avatarUrl, r.avatarUrl))
  }

  /** Writing back what was loaded leaves the row as it was. */
  lemma WrittenLoaded(row: UserRow)
    ensures Written(row, Loaded(row)) == row
  {
  }

  /** Whether every property is unset. */
  predicate NothingSet(r: UserRecord)
  {
    r == UserRecord(Null, Null, Null, Null, Null, Null, Null, Null, Null)
  }

  /** The `success`/`error` result of `save` for a record, given the database's verdict. */
  function SaveResult(r: UserRecord, exec: Execution): Outcome
  {
    if NothingSet(r) then Failure("No fields to update")
    else if r.email == Null then Failure(UnboundParameter)
    else match exec
      case Fails(message) => Failure(message)
      case Executes => Success
  }

  /** The `usuarios` table after a successful `save`: every row whose e-mail is the record's is written. */
  function SavedUsers(users: seq<UserRow>, r: UserRecord): seq<UserRow>
  {
    Seqs.UpdateWhere(users, (u: UserRow) => SqlEq(u.email, Bind(r.email)), (u: UserRow) => Written(u, r))
  }

  /**
   * The WHERE clause reuses the `:email` binding of the SET list, so it selects
   * rows by the record's CURRENT e-mail. When that e-mail was just changed to one
   * no row holds, the UPDATE writes nothing although `save` reports success.
   */
  lemma ChangedEmailSavesNothing(users: seq<UserRow>, r: UserRecord)
    requires r.email != Null && !EmailTaken(users, Bind(r.email))
    ensures SavedUsers(users, r) == users
  {
    Seqs.UpdateWhereNoMatch(users, (u: UserRow) => SqlEq(u.email, Bind(r.email)), (u: UserRow) => Written(u, r));
  }

  /** Rows of other e-mails are never touched by `save`. */
  lemma SaveTouchesOnlyItsEmail(users: seq<UserRow>, r: UserRecord, k: nat)
    requires k < |users| && !SqlEq(users[k].email, Bind(r.email))
    ensures |SavedUsers(users, r)| == |users| && SavedUsers(users, r)[k] == users[k]
  {
  }

  /** A row after `UPDATE usuarios SET p = :p, ...` with the bindings in `values`. */
  function SetColumns(row: UserRow, values: map<string, Value>): UserRow
  {
    UserRow(Assign(row.email, values, "email"), Assign(row.contrasena, values, "contrasena"),
            Assign(row.tipo, values, "tipo"), Assign(row.nombre, values, "nombre"),
            Assign(row.fechaNacimiento, values, "fecha_nacimiento"), Assign(row.sexo, values, "sexo"),
            Assign(row.corrOcular, values, "corr_ocular"), Assign(row.fechaRevOcular, values, "fecha_rev_ocular"),
            Assign(row.avatarUrl, values, "avatar_url"))
  }

  /** `values` binds every set property of the record and nothing else of it. */
  predicate BindsRecord(values: map<string, Value>, r: UserRecord)
  {
    && Binds(values, "email", r.email) && Binds(values, "contrasena", r.contrasena)
    && Binds(values, "tipo", r.tipo) && Binds(values, "nombre", r.nombre)
    && Binds(values, "fecha_nacimiento", r.fechaNacimiento) && Binds(values, "sexo", r.sexo)
    && Binds(values, "corr_ocular", r.corrOcular) && Binds(values, "fecha_rev_ocular", r.fechaRevOcular)
    && Binds(values, "avatar_url", r.avatarUrl)
  }

  /** The SET-list loop binds the record's set properties. */
  lemma RecordBindings(r: UserRecord, values: map<string, Value>)
    requires BindsEach(RecordProps(r), {"pdo"}, values)
    ensures BindsRecord(values, r)
  {
    var props := RecordProps(r);
    assert props[0].name == "email" && props[1].name == "contrasena" && props[2].name == "tipo";
    assert props[3].name == "nombre" && props[4].name == "fecha_nacimiento" && props[5].name == "sexo";
    assert props[6].name == "corr_ocular" && props[7].name == "fecha_rev_ocular" && props[8].name == "avatar_url";
  }

  /** With those bindings, the UPDATE writes each matched row as `Written` says. */
  lemma SetColumnsIsWritten(r: UserRecord, values: map<string, Value>, row: UserRow)
    requires BindsRecord(values, r)
    ensures SetColumns(row, values) == Written(row, r)
  {
  }

  /** No property is kept for the SET list exactly when no property is set. */
  lemma RecordNoneAssigned(r: UserRecord)
    ensures NoneAssigned(RecordProps(r), {"pdo"}) <==> NothingSet(r)
  {
    var props := RecordProps(r);
    if NoneAssigned(props, {"pdo"}) {
      assert props[0].value == Null && props[1].value == Null && props[2].value == Null;
      assert props[3].value == Null && props[4].value == Null && props[5].value == Null;
      assert props[6].value == Null && props[7].value == Null && props[8].value == Null;
    }
  }

  /** The UPDATE that `save` prepares, run with the bindings of a record, is `SavedUsers`. */
  lemma SaveStatementEffect(users: seq<UserRow>, r: UserRecord, values: map<string, Value>,
                            matches: UserRow -> bool, update: UserRow -> UserRow)
    requires BindsRecord(values, r) && "email" in values
    requires forall u :: matches(u) == SqlEq(u.email, Bind(values["email"]))
    requires forall u :: update(u) == SetColumns(u, values)
    ensures Seqs.UpdateWhere(users, matches, update) == SavedUsers(users, r)
  {
    forall k | 0 <= k < |users| ensures update(users[k]) == Written(users[k], r) {
      SetColumnsIsWritten(r, values, users[k]);
    }
    Seqs.UpdateWhereCongruent(users, matches, update,
      (u: UserRow) => SqlEq(u.email, Bind(r.email)), (u: UserRow) => Written(u, r));
  }

  /**
   * The `foreach (get_object_vars($this) ...)` loop of `save` over a record: one
   * "p = :p" per set property, and a binding for each of them.
   */
  method SaveLists(r: UserRecord) returns (fields: seq<string>, values: map<string, Value>)
    ensures |fields| == 0 <==> NothingSet(r)
    ensures BindsRecord(values, r)
  {
    fields, values := BuildSetList(RecordProps(r), {"pdo"});
    RecordBindings(r, values);
    RecordNoneAssigned(r);
  }

  /** `UPDATE usuarios SET ... WHERE email = :email` run with the bindings of a record. */
  method RunUpdate(db: Store, r: UserRecord, values: map<string, Value>)
    requires BindsRecord(values, r) && "email" in values
    modifies db`usuarios
    ensures db.usuarios == SavedUsers(old(db.usuarios), r)
  {
    var key := Bind(values["email"]);
    var matches := (u: UserRow) => SqlEq(u.email, key);
    var setColumns := (u: UserRow) => SetColumns(u, values);
    SaveStatementEffect(db.usuarios, r, values, matches, setColumns);
    db.usuarios := Seqs.UpdateWhere(db.usuarios, matches, setColumns);
  }

  class Usuario {
    var email: Value
    var contrasena: Value
    var tipo: Value
    var nombre: Value
    var fechaNacimiento: Value
    var sexo: Value
    var corrOcular: Value
    var fechaRevOcular: Value
    var avatarUrl: Value

    /** `new Usuario($pdo)`: every property unset. */
    constructor ()
      ensures Record() == UserRecord(Null, Null, Null, Null, Null, Null, Null, Null, Null)
    {
      email, contrasena, tipo, nombre, fechaNacimiento := Null, Null, Null, Null, Null;
      sexo, corrOcular, fechaRevOcular, avatarUrl := Null, Null, Null, Null;
    }

    /** The current properties as one value. */
    function Record(): UserRecord
      reads this
    {
      UserRecord(email, contrasena, tipo, nombre, fechaNacimiento, sexo, corrOcular, fechaRevOcular, avatarUrl)
    }

    /** Assign every property at once, as `load` does from a fetched row. */
    method Fill(rec: UserRecord)
      modifies this
      ensures Record() == rec
    {
      email, contrasena, tipo, nombre, fechaNacimiento := rec.email, rec.contrasena, rec.tipo, rec.nombre, rec.fechaNacimiento;
      sexo, corrOcular, fechaRevOcular, avatarUrl := rec.sexo, rec.corrOcular, rec.fechaRevOcular, rec.avatarUrl;
    }

    /** `save()`: UPDATE the set properties of every row with the current e-mail. */
    method Save(db: Store, exec: Execution) returns (result: Outcome)
      modifies db`usuarios
      ensures result == SaveResult(old(Record()), exec)
      ensures result.Success? ==> db.usuarios == SavedUsers(old(db.usuarios), old(Record()))
      ensures result.Failure? ==> db.usuarios == old(db.usuarios)
    {
      var record := Record();
      var fields, values := SaveLists(record);
      if |fields| == 0 {
        return Failure("No fields to update");
      }
      if "email" !in values {
        // `:email` of the WHERE clause has no binding: PDO raises, `save` reports it.
        return Failure(UnboundParameter);
      }
      if exec.Fails? {
        return Failure(exec.message);
      }
      RunUpdate(db, record, values);
      result := Success;
    }

    /** `load($email)`: copy the nine columns of the row with that e-mail. */
    method Load(db: Store, userEmail: Value, exec: Execution) returns (result: Outcome)
      modifies this
      ensures exec.Fails? ==> result == Failure(exec.message) && Record() == old(Record())
      ensures exec.Executes? && UserByEmail(db.usuarios, Bind(userEmail)).None? ==>
        result == Failure("User not found") && Record() == old(Record())
      ensures exec.Executes? && UserByEmail(db.usuarios, Bind(userEmail)).Some? ==>
        result == Success && Record() == Loaded(UserByEmail(db.usuarios, Bind(userEmail)).value)
    {
      if exec.Fails? {
        return Failure(exec.message);
      }
      var data := UserByEmail(db.usuarios, Bind(userEmail));
      if data.Some? {
        Fill(Loaded(data.value));
        return Success;
      }
      return Failure("User not found");
    }
  }
}
