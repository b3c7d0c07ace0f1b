/**
 * The `/unidades` handlers: registering (or re-registering) one inspected unit of
 * a test, and listing the units of a test.
 */
module UnidadActions {
  import opened Wrappers
  import opened Php
  import opened Sql
  import opened Http
  import opened Schema
  import Seqs

  /** `$data[$key] ?? ''`. */
  function Input(body: Body, key: string): Value
  {
    Coalesce(body, key, Str(""))
  }

  /** `$data['id'] ?? $id_test . ' | ' . $id_en_muestreo`. */
  function UnitId(body: Body): Value
  {
    Coalesce(body, "id", Str(Text(Input(body, "id_test")) + " | " + Text(Input(body, "id_en_muestreo"))))
  }

  /** A key the body does not give takes the default "<id_test> | <id_en_muestreo>". */
  lemma DefaultUnitId(body: Body)
    requires !IsSet(body, "id")
    ensures Bind(UnitId(body)) == Some(Text(Input(body, "id_test")) + " | " + Text(Input(body, "id_en_muestreo")))
  {
  }

  /** One of the five required fields is `empty()`. */
  predicate MissingUnitFields(body: Body)
  {
    || Falsy(Input(body, "id_test")) || Falsy(Input(body, "id_en_muestreo")) || Falsy(Input(body, "usuario_revision"))
    || Falsy(Input(body, "tiempo_invertido")) || Falsy(Input(body, "fecha_creacion"))
  }

  /** `empty($v) ? NULL : $v`, as bound. */
  function NullIfEmpty(v: Value): (c: Cell)
    ensures c.None? <==> Falsy(v)
  {
    if Falsy(v) then None else Bind(v)
  }

  /** The row the REPLACE writes for a body. */
  function RegisteredUnit(body: Body): Unidad
  {
    Unidad(Bind(Input(body, "id_test")), Bind(Input(body, "id_en_muestreo")), Bind(UnitId(body)),
           Bind(Input(body, "usuario_revision")), if Falsy(Field(body, "tiene_particula")) then 0 else 1,
           Bind(Input(body, "tiempo_invertido")), Bind(Input(body, "fecha_creacion")),
           NullIfEmpty(Input(body, "descripcion")), NullIfEmpty(Input(body, "campo_vision")),
           NullIfEmpty(Input(body, "retest_cada")))
  }

  /** The stored row: a key always, `tiene_particula` as 0 or 1, the three optional columns NULL when empty. */
  lemma RegisteredUnitShape(body: Body)
    ensures RegisteredUnit(body).id.Some?
    ensures RegisteredUnit(body).tieneParticula == (if Falsy(Field(body, "tiene_particula")) then 0 else 1)
    ensures RegisteredUnit(body).descripcion.None? <==> Falsy(Input(body, "descripcion"))
    ensures RegisteredUnit(body).campoVision.None? <==> Falsy(Input(body, "campo_vision"))
    ensures RegisteredUnit(body).retestCada.None? <==> Falsy(Input(body, "retest_cada"))
  {
  }

  /** `REPLACE INTO unidades ...` keyed on `id`: any row with the same key is deleted, then the row inserted. */
  function Replace(units: seq<Unidad>, u: Unidad): seq<Unidad>
  {
    Seqs.Filter(units, (v: Unidad) => v.id != u.id) + [u]
  }

  /** After a REPLACE the key is held by exactly one row, the new one, and every other key's rows stay. */
  lemma ReplaceSpec(units: seq<Unidad>, u: Unidad)
    ensures var r := Replace(units, u);
      && r[|r| - 1] == u
      && (forall k :: 0 <= k < |r| - 1 ==> r[k].id != u.id)
      && (forall v :: v in r && v.id != u.id <==> v in units && v.id != u.id)
  {
    var kept := Seqs.Filter(units, (v: Unidad) => v.id != u.id);
    assert forall k :: 0 <= k < |kept| ==> kept[k].id != u.id;
    assert Replace(units, u)[..|kept|] == kept;
  }

  /** Registering the same row twice is registering it once: the key is not duplicated. */
  lemma {:induction false} ReplaceIdempotent(units: seq<Unidad>, u: Unidad)
    ensures Replace(Replace(units, u), u) == Replace(units, u)
  {
    var other := (v: Unidad) => v.id != u.id;
    var kept := Seqs.Filter(units, other);
    Seqs.FilterAppend(kept, [u], other);
    Seqs.FilterIdempotent(units, other);
    assert Seqs.Filter([u], other) == [] by {
      assert [u][1..] == [];
    }
    assert Seqs.Filter(kept + [u], other) == kept;
  }

  /** `POST /unidades/register`. `executes` is the database's verdict on the REPLACE. */
  method UnidadRegister(db: Store, body: Body, executes: bool) returns (res: Reply)
    modifies db`unidades
    ensures "tiene_particula" !in body ==>
      res == Error(BAD_REQUEST, "Missing required parameter: tiene_particula") && db.unidades == old(db.unidades)
    ensures "tiene_particula" in body && MissingUnitFields(body) ==>
      res == Error(BAD_REQUEST, "Missing id_test, id_en_muestreo, usuario_revision, tiempo_invertido or fecha_creacion") &&
      db.unidades == old(db.unidades)
    ensures "tiene_particula" in body && !MissingUnitFields(body) && !executes ==>
      res == Error(INTERNAL_SERVER_ERROR, "Error registering new unidad") && db.unidades == old(db.unidades)
    ensures "tiene_particula" in body && !MissingUnitFields(body) && executes ==>
      res == Message("Unidad registered successfully") && db.unidades == Replace(old(db.unidades), RegisteredUnit(body))
  {
    if "tiene_particula" !in body {
      return Error(BAD_REQUEST, "Missing required parameter: tiene_particula");
    }
    if MissingUnitFields(body) {
      return Error(BAD_REQUEST, "Missing id_test, id_en_muestreo, usuario_revision, tiempo_invertido or fecha_creacion");
    }
    if !executes {
      return Error(INTERNAL_SERVER_ERROR, "Error registering new unidad");
    }
    db.unidades := Replace(db.unidades, RegisteredUnit(body));
    res := Message("Unidad registered successfully");
  }

  // ---------------------------------------------------------------------------
  // GET /unidades/{id_test}

  /** The sort column `id_en_muestreo`. */
  function IdEnMuestreo(u: Unidad): Cell
  {
    u.idEnMuestreo
  }

  /** `WHERE id_test = :id_test`. */
  function OfTest(units: seq<Unidad>, testId: string): (r: seq<Unidad>)
    ensures forall u :: u in r <==> u in units && u.idTest == Some(testId)
  {
    Seqs.Filter(units, (u: Unidad) => SqlEq(u.idTest, Some(testId)))
  }

  /**
   * `GET /unidades/{id_test}`: the units of the test, `ORDER BY id_en_muestreo DESC`.
   * `executes` is the database's verdict on the SELECT.
   */
  function UnidadesGetTest(units: seq<Unidad>, testId: string, executes: bool): (res: Response<seq<Unidad>>)
    ensures FalsyText(testId) ==> res == Error(BAD_REQUEST, "Missing id_test")
    ensures !FalsyText(testId) && !executes ==> res == Error(INTERNAL_SERVER_ERROR, "Error retrieving unidades")
    ensures !FalsyText(testId) && executes ==>
      && res.status == OK && res.body.Data?
      && multiset(res.body.value) == multiset(OfTest(units, testId))
      && SortedDesc(res.body.value, IdEnMuestreo)
  {
    if FalsyText(testId) then Error(BAD_REQUEST, "Missing id_test")
    else if !executes then Error(INTERNAL_SERVER_ERROR, "Error retrieving unidades")
    else Response(OK, Data(OrderByDesc(OfTest(units, testId), IdEnMuestreo)))
  }

  /** Every returned unit belongs to the test, and every unit of the test is returned. */
  lemma UnidadesOfTest(units: seq<Unidad>, testId: string, executes: bool)
    requires !FalsyText(testId) && executes
    ensures forall u :: u in UnidadesGetTest(units, testId, executes).body.value <==>
      u in units && u.idTest == Some(testId)
  {
    var r := UnidadesGetTest(units, testId, executes).body.value;
    forall u ensures u in r <==> u in OfTest(units, testId) {
      assert u in r <==> u in multiset(r);
      assert u in OfTest(units, testId) <==> u in multiset(OfTest(units, testId));
    }
  }
}
