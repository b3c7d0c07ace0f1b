/**
 * The `/tests` handlers: creating a test, moving it through its workflow states,
 * listing the tests a role may see, reading one test with its sampling type, lot
 * and product, and storing the sampling layout of a test.
 */
module TestActions {
  import opened Wrappers
  import opened Php
  import opened Sql
  import opened Http
  import opened Schema
  import opened Policy
  import opened TestDomain
  import Seqs

  // ---------------------------------------------------------------------------
  // POST /tests/generar

  const MissingTestData := "Faltan datos en el JSON del test ('lote', 'nombre_muestreo', 'fecha_creacion' o 'estado')"

  /** One of the four required keys is loosely null: missing, null, false, 0, "" or []. */
  predicate MissingRequired(body: Body)
  {
    || LooselyNull(Field(body, "lote")) || LooselyNull(Field(body, "nombre_muestreo"))
    || LooselyNull(Field(body, "fecha_creacion")) || LooselyNull(Field(body, "estado"))
  }

  /** A body that passes the required-field check always gives `create` something to insert. */
  lemma RequiredFieldsInsert(body: Body)
    requires !MissingRequired(body)
    ensures !NothingToInsert(CreateInput(body))
  {
    assert CreateInput(body).lote != Null;
  }

  /**
   * `POST /tests/generar`: the required-field check comes before the role check,
   * then the test is created through `TestService::createTest`.
   */
  method TestGenerar(db: Store, headers: Headers, body: Body, exec: Execution) returns (res: Reply)
    modifies db`tests, db`nextTestId
    ensures MissingRequired(body) ==> res == Error(BAD_REQUEST, MissingTestData)
    ensures !MissingRequired(body) && Header(headers, "tipo") != Administrador ==>
      res == Error(UNAUTHORIZED, "Unauthorized to create a test, you need higher privileges")
    ensures !(!MissingRequired(body) && Header(headers, "tipo") == Administrador && exec.Executes?) ==>
      db.tests == old(db.tests) && db.nextTestId == old(db.nextTestId)
    ensures !MissingRequired(body) && Header(headers, "tipo") == Administrador ==>
      && (exec.Fails? ==> res == Error(NOT_FOUND, "Error creating test:" + exec.message))
      && (exec.Executes? ==>
            && res == Message("Creación correcta del test")
            && db.tests == old(db.tests) + [InsertedRow(old(db.nextTestId), CreateInput(body))]
            && db.nextTestId == old(db.nextTestId) + 1)
  {
    if MissingRequired(body) {
      return Error(BAD_REQUEST, MissingTestData);
    }
    if Header(headers, "tipo") != Administrador {
      return Error(UNAUTHORIZED, "Unauthorized to create a test, you need higher privileges");
    }
    RequiredFieldsInsert(body);
    var created := CreateTest(db, body, exec);
    if created.CreateFailed? {
      return Error(NOT_FOUND, "Error creating test:" + created.error);
    }
    res := Message("Creación correcta del test");
  }

  // ---------------------------------------------------------------------------
  // POST /tests/cambiarEstado/{id_test}

  /** The seven workflow states, in the order the handler lists them. */
  const States := ["Nuevo", "Muestrando", "Visualizando", "Disponible", "Bloqueado", "Aceptado", "Rechazado"]

  lemma StatesAreWords()
    ensures forall k :: 0 <= k < |States| ==> IsWord(States[k])
  {
    assert IsWord("Nuevo") && IsWord("Muestrando") && IsWord("Visualizando") && IsWord("Disponible");
    assert IsWord("Bloqueado") && IsWord("Aceptado") && IsWord("Rechazado");
  }

  /** `in_array($estado, [...])` with PHP's loose comparison. */
  predicate IsState(estado: Value)
  {
    StatesAreWords();
    InArrayLoose(estado, States)
  }

  /** `$estado == $a || $estado == $b`, loosely. */
  predicate LooselyOneOf(estado: Value, a: string, b: string)
    requires IsWord(a) && IsWord(b)
  {
    LooselyEqualsWord(estado, a) || LooselyEqualsWord(estado, b)
  }

  /**
   * The handler's validation chain, in its order: missing state, unknown state,
   * privilege for Nuevo/Bloqueado, end date for Aceptado/Rechazado. The first
   * failing check answers; `None` lets the update run.
   */
  function EstadoCheck(estado: Value, fechaFin: Value, headerTipo: string): Option<Reply>
  {
    StatesAreWords();
    if Falsy(estado) then Some(Error(BAD_REQUEST, "Falta el JSON con el estado"))
    else if !IsState(estado) then Some(Error(BAD_REQUEST, "El estado no es válido"))
    else if LooselyOneOf(estado, "Nuevo", "Bloqueado") && headerTipo != Administrador then
      Some(Error(UNAUTHORIZED, "No tienes permisos para cambiar el estado a Nuevo o Bloqueado"))
    else if LooselyOneOf(estado, "Aceptado", "Rechazado") && Falsy(fechaFin) then
      Some(Error(BAD_REQUEST, "Falta la fecha de fin"))
    else None
  }

  /** A state given as a string passes the membership check iff it is one of the seven, spelled exactly. */
  lemma {:induction false} StringStateIsListed(s: string)
    ensures IsState(Str(s)) <==> s in States
  {
    StatesAreWords();
    if s in States {
      var k :| 0 <= k < |States| && States[k] == s;
      assert LooselyEqualsWord(Str(s), States[k]);
    }
  }

  /** Only "Administrador" may move a test to Nuevo or Bloqueado, with or without an end date. */
  lemma PrivilegedStatesNeedAdmin(estado: string, fechaFin: Value, headerTipo: string)
    requires estado == "Nuevo" || estado == "Bloqueado"
    ensures EstadoCheck(Str(estado), fechaFin, headerTipo).None? <==> headerTipo == Administrador
  {
    StringStateIsListed(estado);
  }

  /** Closing a test as Aceptado or Rechazado needs an end date. */
  lemma ClosingNeedsEndDate(estado: string, fechaFin: Value, headerTipo: string)
    requires estado == "Aceptado" || estado == "Rechazado"
    ensures EstadoCheck(Str(estado), fechaFin, headerTipo).None? <==> !Falsy(fechaFin)
  {
    StringStateIsListed(estado);
  }

  /**
   * The boolean `true` is loosely equal to every state name, so it passes the
   * membership check and counts as Nuevo, Bloqueado, Aceptado and Rechazado at
   * once: an administrator giving an end date stores the state "1".
   */
  lemma TrueIsEveryState(fechaFin: Value, headerTipo: string)
    ensures IsState(Bool(true))
    ensures headerTipo != Administrador ==> EstadoCheck(Bool(true), fechaFin, headerTipo).value.status == UNAUTHORIZED
    ensures headerTipo == Administrador && !Falsy(fechaFin) ==> EstadoCheck(Bool(true), fechaFin, headerTipo).None?
    ensures Bind(Bool(true)) == Some("1")
  {
    StatesAreWords();
    assert LooselyEqualsWord(Bool(true), States[0]);
  }

  /** `UPDATE tests SET estado = :estado, ult_usuario = :ult_usuario, fecha_fin = :fecha_fin WHERE id = :id_test`. */
  function WithEstado(tests: seq<TestRow>, testId: string, estado: Value, ultUsuario: string, fechaFin: Value): seq<TestRow>
  {
    Seqs.UpdateWhere(tests, (t: TestRow) => TestIdIs(t, Some(testId)),
      (t: TestRow) => t.(estado := Bind(estado), ultUsuario := Some(ultUsuario),
                         fechaFin := if Falsy(fechaFin) then None else Bind(fechaFin)))
  }

  /** The state change writes the three columns of the addressed test and nothing else. */
  lemma WithEstadoTouchesOnlyItsTest(tests: seq<TestRow>, testId: string, estado: Value, ultUsuario: string,
                                     fechaFin: Value, k: nat)
    requires k < |tests|
    ensures |WithEstado(tests, testId, estado, ultUsuario, fechaFin)| == |tests|
    ensures var t := WithEstado(tests, testId, estado, ultUsuario, fechaFin)[k];
      if TestIdIs(tests[k], Some(testId)) then
        t.estado == Bind(estado) && t.ultUsuario == Some(ultUsuario) &&
        t.fechaFin == (if Falsy(fechaFin) then None else Bind(fechaFin)) &&
        t.(estado := tests[k].estado, ultUsuario := tests[k].ultUsuario, fechaFin := tests[k].fechaFin) == tests[k]
      else t == tests[k]
  {
  }

  /** `POST /tests/cambiarEstado/{id_test}`. `executes` is the database's verdict on the UPDATE. */
  method TestCambiarEstado(db: Store, headers: Headers, testId: string, body: Body, executes: bool)
    returns (res: Reply)
    modifies db`tests
    ensures var check := EstadoCheck(Coalesce(body, "estado", Str("")), Coalesce(body, "fecha_fin", Str("")),
                                     Header(headers, "tipo"));
      && (check.Some? ==> res == check.value && db.tests == old(db.tests))
      && (check.None? && !executes ==>
            res == Error(INTERNAL_SERVER_ERROR, "Error modificando el estado") && db.tests == old(db.tests))
      && (check.None? && executes ==>
            && res == Message("Cambio correcto del estado del test")
            && db.tests == WithEstado(old(db.tests), testId, Coalesce(body, "estado", Str("")),
                                      Header(headers, "user_email"), Coalesce(body, "fecha_fin", Str(""))))
  {
    StatesAreWords();
    var headerTipo := Header(headers, "tipo");
    var headerEmail := Header(headers, "user_email");
    var estado := Coalesce(body, "estado", Str(""));
    var fechaFin := Coalesce(body, "fecha_fin", Str(""));
    if Falsy(estado) {
      return Error(BAD_REQUEST, "Falta el JSON con el estado");
    } else if !IsState(estado) {
      return Error(BAD_REQUEST, "El estado no es válido");
    } else if LooselyOneOf(estado, "Nuevo", "Bloqueado") && headerTipo != Administrador {
      return Error(UNAUTHORIZED, "No tienes permisos para cambiar el estado a Nuevo o Bloqueado");
    } else if LooselyOneOf(estado, "Aceptado", "Rechazado") && Falsy(fechaFin) {
      return Error(BAD_REQUEST, "Falta la fecha de fin");
    }
    if !executes {
      return Error(INTERNAL_SERVER_ERROR, "Error modificando el estado");
    }
    db.tests := WithEstado(db.tests, testId, estado, headerEmail, fechaFin);
    res := Message("Cambio correcto del estado del test");
  }

  // ---------------------------------------------------------------------------
  // GET /tests/{tipo_usuario}

  /** `estado != 'Aceptado' AND estado != 'Rechazado'`: a NULL state satisfies neither. */
  predicate Open(t: TestRow)
  {
    SqlNotEq(t.estado, "Aceptado") && SqlNotEq(t.estado, "Rechazado")
  }

  /** The first sampling type whose `nombre` is identical (`===`) to the given one; NULL matches NULL. */
  function TypeNamed(types: seq<SamplingType>, nombre: Cell): (r: Option<SamplingType>)
    ensures r.Some? ==> r.value in types && r.value.nombre == nombre
  {
    if types == [] then None
    else if types[0].nombre == nombre then Some(types[0])
    else TypeNamed(types[1..], nombre)
  }

  lemma {:induction false} TypeNamedAt(types: seq<SamplingType>, nombre: Cell, j: nat)
    requires j < |types| && types[j].nombre == nombre
    requires forall k :: 0 <= k < j ==> types[k].nombre != nombre
    ensures TypeNamed(types, nombre) == Some(types[j])
  {
    if j > 0 {
      TypeNamedAt(types[1..], nombre, j - 1);
    }
  }

  lemma {:induction false} TypeNamedNone(types: seq<SamplingType>, nombre: Cell)
    requires forall k :: 0 <= k < |types| ==> types[k].nombre != nombre
    ensures TypeNamed(types, nombre).None?
  {
    if types != [] {
      TypeNamedNone(types[1..], nombre);
    }
  }

  /** A test is offered to a role when its first sampling type is unreserved (`""`) or reserved to that role. */
  predicate Offered(t: TestRow, types: seq<SamplingType>, role: string)
  {
    match TypeNamed(types, t.nombreMuestreo)
    case None => false
    case Some(ty) => ty.exclusivoDe == Some("") || ty.exclusivoDe == Some(role)
  }

  /** The tests of `tests` offered to `role`, in order (the nested loop's result). */
  function Visible(tests: seq<TestRow>, types: seq<SamplingType>, role: string): seq<TestRow>
    decreases |tests|
  {
    if tests == [] then []
    else
      var last := tests[|tests| - 1];
      Visible(tests[..|tests| - 1], types, role) + (if Offered(last, types, role) then [last] else [])
  }

  /** The nested loop is a filter by `Offered`. */
  lemma {:induction false} VisibleIsFilter(tests: seq<TestRow>, types: seq<SamplingType>, role: string,
                                           offered: TestRow -> bool)
    requires forall t :: offered(t) == Offered(t, types, role)
    ensures Visible(tests, types, role) == Seqs.Filter(tests, offered)
    decreases |tests|
  {
    if tests != [] {
      var init, last := tests[..|tests| - 1], tests[|tests| - 1];
      VisibleIsFilter(init, types, role, offered);
      assert tests == init + [last];
      Seqs.FilterAppend(init, [last], offered);
      assert Seqs.Filter([last], offered) == (if offered(last) then [last] else []) by {
        assert [last][1..] == [];
      }
    }
  }

  /** What `GET /tests/{tipo_usuario}` lists: every test for "Administrador", else the open tests offered to the role. */
  function Listed(tests: seq<TestRow>, types: seq<SamplingType>, role: string): seq<TestRow>
  {
    if role == Administrador then tests else Visible(Seqs.Filter(tests, Open), types, role)
  }

  /**
   * A role other than "Administrador" is listed exactly the open tests whose first
   * matching sampling type is unreserved or reserved to it, in table order.
   */
  lemma ListedForRole(tests: seq<TestRow>, types: seq<SamplingType>, role: string)
    requires role != Administrador
    ensures forall t :: t in Listed(tests, types, role) <==> t in tests && Open(t) && Offered(t, types, role)
    ensures Seqs.IsSubsequence(Listed(tests, types, role), tests)
  {
    var offered := (t: TestRow) => Offered(t, types, role);
    var both := (t: TestRow) => Open(t) && Offered(t, types, role);
    VisibleIsFilter(Seqs.Filter(tests, Open), types, role, offered);
    Seqs.FilterFilter(tests, Open, offered, both);
    Seqs.FilterIsSubsequence(tests, both);
  }

  /**
   * A reservation stored as NULL is not the empty reservation: a test whose sampling
   * type has `exclusivo_de` NULL is listed to no role but "Administrador".
   */
  lemma NullReservationHides(tests: seq<TestRow>, types: seq<SamplingType>, role: string, t: TestRow)
    requires role != Administrador
    requires TypeNamed(types, t.nombreMuestreo).Some? && TypeNamed(types, t.nombreMuestreo).value.exclusivoDe.None?
    ensures t !in Listed(tests, types, role)
  {
    ListedForRole(tests, types, role);
  }

  /** The inner loop: the first sampling type named like the test decides whether it is appended. */
  method OfferIfMatched(t: TestRow, types: seq<SamplingType>, role: string, filtered: seq<TestRow>)
    returns (filtered': seq<TestRow>)
    ensures filtered' == filtered + (if Offered(t, types, role) then [t] else [])
  {
    filtered' := filtered;
    ghost var matched := false;
    var j := 0;
    while j < |types|
      invariant 0 <= j <= |types|
      invariant !matched && filtered' == filtered
      invariant forall k :: 0 <= k < j ==> types[k].nombre != t.nombreMuestreo
    {
      if t.nombreMuestreo == types[j].nombre {
        TypeNamedAt(types, t.nombreMuestreo, j);
        if types[j].exclusivoDe == Some("") || types[j].exclusivoDe == Some(role) {
          filtered' := filtered' + [t];
        }
        matched := true;
        break;
      }
      j := j + 1;
    }
    if !matched {
      TypeNamedNone(types, t.nombreMuestreo);
    }
  }

  /** `GET /tests/{tipo_usuario}`: the tests the role may work on. */
  method TestsGet(db: Store, role: string) returns (res: Response<seq<TestRow>>)
    ensures FalsyText(role) ==> res == Error(BAD_GATEWAY, "Bad route: Introduzca el tipo de usuario")
    ensures !FalsyText(role) && db.tiposMuestreo == [] ==> res == Error(NOT_FOUND, "No se han creado tipos de muestreo")
    ensures !FalsyText(role) && db.tiposMuestreo != [] ==>
      res == Response(OK, Data(Listed(db.tests, db.tiposMuestreo, role)))
  {
    if FalsyText(role) {
      return Error(BAD_GATEWAY, "Bad route: Introduzca el tipo de usuario");
    }
    var tests := if role == Administrador then db.tests else Seqs.Filter(db.tests, Open);
    var types := db.tiposMuestreo;
    if types == [] {
      return Error(NOT_FOUND, "No se han creado tipos de muestreo");
    }
    var filtered: seq<TestRow> := [];
    if role == Administrador {
      filtered := tests;
    } else {
      var i := 0;
      while i < |tests|
        invariant 0 <= i <= |tests|
        invariant filtered == Visible(tests[..i], types, role)
      {
        filtered := OfferIfMatched(tests[i], types, role, filtered);
        assert tests[..i + 1][..i] == tests[..i];
        i := i + 1;
      }
      assert tests[..|tests|] == tests;
    }
    res := Response(OK, Data(filtered));
  }

  // ---------------------------------------------------------------------------
  // POST /tests/{id}

  /** The four result sets of `POST /tests/{id}`. */
  datatype Concrete = Concrete(test: seq<TestRow>, tipoMuestreo: seq<SamplingType>, lote: seq<Lote>, producto: seq<Producto>)

  /** The caller is an administrator when the BODY says `tipo_usuario` is "Administrador" (strictly). */
  predicate ClaimsAdmin(body: Body)
  {
    Coalesce(body, "tipo_usuario", Null) == Str(Administrador)
  }

  /** The test query: by id for an administrator; otherwise also open and unreserved or reserved to the e-mail. */
  predicate TestShown(t: TestRow, testId: string, admin: bool, userEmail: Value)
  {
    TestIdIs(t, Some(testId)) &&
    (admin || (Open(t) && (t.exclusivoDe.None? || SqlEq(t.exclusivoDe, Bind(userEmail)))))
  }

  /** The sampling-type query: by name; for others also unreserved, reserved to 'Usuario' or to the claimed role. */
  predicate TypeShown(ty: SamplingType, nombre: Cell, admin: bool, tipoUsuario: Value)
  {
    SqlEq(ty.nombre, nombre) &&
    (admin || ty.exclusivoDe.None? || SqlEq(ty.exclusivoDe, Some("Usuario")) || SqlEq(ty.exclusivoDe, Bind(tipoUsuario)))
  }

  const NoTest := "No se ha encontrado el test o no se tiene acceso a él"
  const NoType := "No se ha encontrado el tipo de muestreo o no se tiene acceso a él"
  const NoLote := "No se ha encontrado el lote"
  const NoProducto := "No se ha encontrado el producto"

  /** The rows of the test query. */
  function ShownTests(tests: seq<TestRow>, testId: string, body: Body): (r: seq<TestRow>)
    ensures forall t :: t in r <==> t in tests && TestShown(t, testId, ClaimsAdmin(body), Coalesce(body, "user_email", Null))
    ensures r == [] <==>
      forall k :: 0 <= k < |tests| ==> !TestShown(tests[k], testId, ClaimsAdmin(body), Coalesce(body, "user_email", Null))
  {
    var admin, userEmail := ClaimsAdmin(body), Coalesce(body, "user_email", Null);
    var r := Seqs.Filter(tests, (t: TestRow) => TestShown(t, testId, admin, userEmail));
    assert forall k | 0 <= k < |tests| :: tests[k] in tests;
    assert r != [] ==> r[0] in r;
    r
  }

  /** The rows of the sampling-type query for the test's `nombre_muestreo`. */
  function ShownTypes(types: seq<SamplingType>, nombre: Cell, admin: bool, tipoUsuario: Value): (r: seq<SamplingType>)
    ensures forall ty :: ty in r <==> ty in types && TypeShown(ty, nombre, admin, tipoUsuario)
  {
    Seqs.Filter(types, (ty: SamplingType) => TypeShown(ty, nombre, admin, tipoUsuario))
  }

  /** `SELECT * FROM lotes WHERE id = :lote`. */
  function LotesWithId(lotes: seq<Lote>, id: Cell): (r: seq<Lote>)
    ensures forall l :: l in r <==> l in lotes && SqlEq(l.id, id)
  {
    Seqs.Filter(lotes, (l: Lote) => SqlEq(l.id, id))
  }

  /** `SELECT * FROM productos WHERE id = :codigo_producto`. */
  function ProductosWithId(productos: seq<Producto>, id: Cell): (r: seq<Producto>)
    ensures forall p :: p in r <==> p in productos && SqlEq(p.id, id)
  {
    Seqs.Filter(productos, (p: Producto) => SqlEq(p.id, id))
  }

  /**
   * The three queries after the test was found: its sampling type, its lot, the
   * lot's product. The first empty result answers 404 with its own message; only
   * the first lot feeds the product query.
   */
  function Related(test: TestRow, types: seq<SamplingType>, lotes: seq<Lote>, productos: seq<Producto>,
                   admin: bool, tipoUsuario: Value): (res: Response<(seq<SamplingType>, seq<Lote>, seq<Producto>)>)
    ensures res.status in {OK, NOT_FOUND} && res != Error(NOT_FOUND, NoTest)
    ensures var tipos, lote := ShownTypes(types, test.nombreMuestreo, admin, tipoUsuario), LotesWithId(lotes, test.lote);
      && (tipos == [] ==> res == Error(NOT_FOUND, NoType))
      && (tipos != [] && lote == [] ==> res == Error(NOT_FOUND, NoLote))
      && (tipos != [] && lote != [] && ProductosWithId(productos, lote[0].codigoProducto) == [] ==>
            res == Error(NOT_FOUND, NoProducto))
      && (tipos != [] && lote != [] && ProductosWithId(productos, lote[0].codigoProducto) != [] ==>
            res == Response(OK, Data((tipos, lote, ProductosWithId(productos, lote[0].codigoProducto)))))
    ensures res.status == OK ==>
      && res.body.Data? && res.body.value.0 != [] && res.body.value.1 != [] && res.body.value.2 != []
      && (forall ty :: ty in res.body.value.0 <==> ty in types && TypeShown(ty, test.nombreMuestreo, admin, tipoUsuario))
      && (forall l :: l in res.body.value.1 <==> l in lotes && SqlEq(l.id, test.lote))
      && (forall p :: p in res.body.value.2 <==> p in productos && SqlEq(p.id, res.body.value.1[0].codigoProducto))
  {
    assert NoType[24] != NoTest[24];
    assert map["error" := NoType]["error"] != map["error" := NoTest]["error"];
    assert NoLote != NoTest && NoProducto != NoTest by {
      assert |NoLote| != |NoTest| && |NoProducto| != |NoTest|;
    }
    assert map["error" := NoLote]["error"] != map["error" := NoTest]["error"];
    assert map["error" := NoProducto]["error"] != map["error" := NoTest]["error"];
    var tipos := ShownTypes(types, test.nombreMuestreo, admin, tipoUsuario);
    if tipos == [] then Error(NOT_FOUND, NoType)
    else
      var lote := LotesWithId(lotes, test.lote);
      if lote == [] then Error(NOT_FOUND, NoLote)
      else
        var producto := ProductosWithId(productos, lote[0].codigoProducto);
        if producto == [] then Error(NOT_FOUND, NoProducto)
        else Response(OK, Data((tipos, lote, producto)))
  }

  /** The caller the body names gives no role and no e-mail: the route's 502. */
  predicate Anonymous(body: Body)
  {
    Falsy(Coalesce(body, "tipo_usuario", Null)) && Falsy(Coalesce(body, "user_email", Null))
  }

  /**
   * `POST /tests/{id}`: the test, then its sampling type, its lot and the lot's
   * product, each fetched with every row that matches; the first empty result
   * answers 404, and only the first row of each feeds the next query.
   */
  function TestsConcretoGet(tests: seq<TestRow>, types: seq<SamplingType>, lotes: seq<Lote>, productos: seq<Producto>,
                            testId: string, body: Body): (res: Response<Concrete>)
    ensures res.status in {OK, NOT_FOUND, BAD_GATEWAY}
    ensures res.status == BAD_GATEWAY <==> Anonymous(body)
    // The 404s in the order test, sampling type, lot, product; all four found gives 200.
    ensures !Anonymous(body) ==>
      var shown := ShownTests(tests, testId, body);
      && (shown == [] ==> res == Error(NOT_FOUND, NoTest))
      && (shown != [] ==>
            var tipos := ShownTypes(types, shown[0].nombreMuestreo, ClaimsAdmin(body), Coalesce(body, "tipo_usuario", Null));
            var lote := LotesWithId(lotes, shown[0].lote);
            && (tipos == [] ==> res == Error(NOT_FOUND, NoType))
            && (tipos != [] && lote == [] ==> res == Error(NOT_FOUND, NoLote))
            && (tipos != [] && lote != [] && ProductosWithId(productos, lote[0].codigoProducto) == [] ==>
                  res == Error(NOT_FOUND, NoProducto))
            && (tipos != [] && lote != [] && ProductosWithId(productos, lote[0].codigoProducto) != [] ==>
                  res == Response(OK, Data(Concrete(shown, tipos, lote, ProductosWithId(productos, lote[0].codigoProducto))))))
  {
    var tipoUsuario := Coalesce(body, "tipo_usuario", Null);
    var userEmail := Coalesce(body, "user_email", Null);
    if Falsy(tipoUsuario) && Falsy(userEmail) then
      Error(BAD_GATEWAY, "Bad route: Introduzca el tipo de usuario o el email del usuario")
    else
      var shown := ShownTests(tests, testId, body);
      if shown == [] then Error(NOT_FOUND, NoTest)
      else match Related(shown[0], types, lotes, productos, ClaimsAdmin(body), tipoUsuario)
        case Response(status, Fields(fields)) => Response(status, Fields(fields))
        case Response(status, Data((tipos, lote, producto))) => Response(status, Data(Concrete(shown, tipos, lote, producto)))
  }

  /** The test query finds nothing exactly when no row passes `TestShown`; that 404 comes first. */
  lemma ConcreteTestMissing(tests: seq<TestRow>, types: seq<SamplingType>, lotes: seq<Lote>, productos: seq<Producto>,
                            testId: string, body: Body)
    requires !Anonymous(body)
    ensures TestsConcretoGet(tests, types, lotes, productos, testId, body) == Error(NOT_FOUND, NoTest) <==>
      forall k :: 0 <= k < |tests| ==>
        !TestShown(tests[k], testId, ClaimsAdmin(body), Coalesce(body, "user_email", Null))
  {
  }

  /**
   * A 200 carries exactly the rows each query selects: the tests the caller may see,
   * the visible sampling types named like the first test, the lots of the first
   * test, and the products of the first lot; none of the four is empty.
   */
  lemma ConcreteShows(tests: seq<TestRow>, types: seq<SamplingType>, lotes: seq<Lote>, productos: seq<Producto>,
                      testId: string, body: Body)
    requires TestsConcretoGet(tests, types, lotes, productos, testId, body).status == OK
    ensures var c := TestsConcretoGet(tests, types, lotes, productos, testId, body).body;
      && c.Data? && c.value.test != [] && c.value.tipoMuestreo != [] && c.value.lote != [] && c.value.producto != []
      && (forall t :: t in c.value.test <==>
            t in tests && TestShown(t, testId, ClaimsAdmin(body), Coalesce(body, "user_email", Null)))
      && (forall ty :: ty in c.value.tipoMuestreo <==>
            ty in types && TypeShown(ty, c.value.test[0].nombreMuestreo, ClaimsAdmin(body),
                                     Coalesce(body, "tipo_usuario", Null)))
      && (forall l :: l in c.value.lote <==> l in lotes && SqlEq(l.id, c.value.test[0].lote))
      && (forall p :: p in c.value.producto <==> p in productos && SqlEq(p.id, c.value.lote[0].codigoProducto))
  {
  }

  /**
   * Administrator rights on this route come from the request body: any caller who
   * writes `"tipo_usuario": "Administrador"` gets past the test query for an
   * existing id, closed or reserved to someone else.
   */
  lemma BodyClaimGrantsAdmin(tests: seq<TestRow>, types: seq<SamplingType>, lotes: seq<Lote>, productos: seq<Producto>,
                             testId: string, body: Body, k: nat)
    requires k < |tests| && TestIdIs(tests[k], Some(testId))
    requires "tipo_usuario" in body && body["tipo_usuario"] == Str(Administrador)
    ensures TestsConcretoGet(tests, types, lotes, productos, testId, body) != Error(NOT_FOUND, NoTest)
  {
    assert TestShown(tests[k], testId, ClaimsAdmin(body), Coalesce(body, "user_email", Null));
  }

  /** Without the claim, a closed test is never shown. */
  lemma ClosedHiddenWithoutClaim(tests: seq<TestRow>, types: seq<SamplingType>, lotes: seq<Lote>, productos: seq<Producto>,
                                 testId: string, body: Body)
    requires !ClaimsAdmin(body)
    requires TestsConcretoGet(tests, types, lotes, productos, testId, body).status == OK
    ensures forall t :: t in TestsConcretoGet(tests, types, lotes, productos, testId, body).body.value.test ==> Open(t)
  {
    ConcreteShows(tests, types, lotes, productos, testId, body);
  }

  // ---------------------------------------------------------------------------
  // POST /tests/registerMuestreo/{id_test}

  /** `UPDATE tests SET estructura_muestreo = :estructura_muestreo WHERE id = :id_test`. */
  function WithStructure(tests: seq<TestRow>, testId: string, encoded: string): seq<TestRow>
  {
    Seqs.UpdateWhere(tests, (t: TestRow) => TestIdIs(t, Some(testId)),
                     (t: TestRow) => t.(estructuraMuestreo := Some(encoded)))
  }

  /** Only the addressed test changes, and only in `estructura_muestreo`. */
  lemma WithStructureTouchesOneColumn(tests: seq<TestRow>, testId: string, encoded: string, k: nat)
    requires k < |tests|
    ensures |WithStructure(tests, testId, encoded)| == |tests|
    ensures WithStructure(tests, testId, encoded)[k] ==
      if TestIdIs(tests[k], Some(testId)) then tests[k].(estructuraMuestreo := Some(encoded)) else tests[k]
  {
  }

  /** An id that names no test leaves the table as it was, and the handler still reports success. */
  lemma WithStructureUnknownId(tests: seq<TestRow>, testId: string, encoded: string)
    requires forall k :: 0 <= k < |tests| ==> !TestIdIs(tests[k], Some(testId))
    ensures WithStructure(tests, testId, encoded) == tests
  {
    Seqs.UpdateWhereNoMatch(tests, (t: TestRow) => TestIdIs(t, Some(testId)),
                            (t: TestRow) => t.(estructuraMuestreo := Some(encoded)));
  }

  /**
   * `POST /tests/registerMuestreo/{id_test}`: with a truthy `bandejas`, store the JSON
   * encoding of the WHOLE body. `encode` is `json_encode`; `executes` is the
   * database's verdict on the UPDATE.
   */
  method MuestreoRegistrar(db: Store, testId: string, body: Body, encode: Body -> string, executes: bool)
    returns (res: Reply)
    modifies db`tests
    ensures Falsy(Coalesce(body, "bandejas", Str(""))) ==>
      res == Error(BAD_REQUEST, "Falta el JSON con las bandejas") && db.tests == old(db.tests)
    ensures !Falsy(Coalesce(body, "bandejas", Str(""))) && !executes ==>
      res == Error(INTERNAL_SERVER_ERROR, "Error insertando el muestreo") && db.tests == old(db.tests)
    ensures !Falsy(Coalesce(body, "bandejas", Str(""))) && executes ==>
      res == Message("Muestreo para el test registrado correctamente") &&
      db.tests == WithStructure(old(db.tests), testId, encode(body))
  {
    var bandejas := Coalesce(body, "bandejas", Str(""));
    if Falsy(bandejas) {
      return Error(BAD_REQUEST, "Falta el JSON con las bandejas");
    }
    if !executes {
      return Error(INTERNAL_SERVER_ERROR, "Error insertando el muestreo");
    }
    db.tests := WithStructure(db.tests, testId, encode(body));
    res := Message("Muestreo para el test registrado correctamente");
  }
}
