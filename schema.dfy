/**
 * The relational state the handlers read and write, as one object whose fields are
 * the tables. A table is a sequence of rows: SQL gives rows no order, and the
 * model's order is the one `fetch()` and `fetchAll()` report. Each row type holds
 * the columns the handlers read or write.
 */
module Schema {
  import opened Wrappers
  import opened Php
  import opened Sql
  import Seqs

  /** A row of `refresh_tokens`: owner, opaque value, expiry instant in seconds. */
  datatype RefreshRow = RefreshRow(userEmail: string, token: string, expiresAt: int)

  /** A row of `usuarios`, in the column order of the `Usuario` properties. */
  datatype UserRow = UserRow(
    email: Cell, contrasena: Cell, tipo: Cell, nombre: Cell, fechaNacimiento: Cell,
    sexo: Cell, corrOcular: Cell, fechaRevOcular: Cell, avatarUrl: Cell)

  /** A row of `tests`; `id` is the AUTO_INCREMENT key. */
  datatype TestRow = TestRow(
    id: int, lote: Cell, nombreMuestreo: Cell, estructuraMuestreo: Cell, fechaCreacion: Cell,
    fechaObjetivo: Cell, fechaFin: Cell, estado: Cell, ultUsuario: Cell, exclusivoDe: Cell)

  /** A row of `tipos_muestreo`: a sampling type and the role it is reserved for, if any. */
  datatype SamplingType = SamplingType(nombre: Cell, exclusivoDe: Cell)

  /** A row of `lotes`. */
  datatype Lote = Lote(id: Cell, codigoProducto: Cell)

  /** A row of `productos`. */
  datatype Producto = Producto(id: Cell)

  /** A row of `unidades`. */
  datatype Unidad = Unidad(
    idTest: Cell, idEnMuestreo: Cell, id: Cell, usuarioRevision: Cell, tieneParticula: int,
    tiempoInvertido: Cell, fechaCreacion: Cell, descripcion: Cell, campoVision: Cell, retestCada: Cell)

  class Store {
    var refreshTokens: seq<RefreshRow>
    var usuarios: seq<UserRow>
    var tests: seq<TestRow>
    /** The next value of the AUTO_INCREMENT counter of `tests`. */
    var nextTestId: int
    var tiposMuestreo: seq<SamplingType>
    var lotes: seq<Lote>
    var productos: seq<Producto>
    var unidades: seq<Unidad>

    constructor ()
      ensures refreshTokens == [] && usuarios == [] && tests == [] && nextTestId == 1
      ensures tiposMuestreo == [] && lotes == [] && productos == [] && unidades == []
    {
      refreshTokens, usuarios, tests, nextTestId := [], [], [], 1;
      tiposMuestreo, lotes, productos, unidades := [], [], [], [];
    }
  }

  // ---------------------------------------------------------------------------
  // Statements on refresh_tokens.

  /** `DELETE FROM refresh_tokens WHERE token = :token`. */
  function WithoutToken(rows: seq<RefreshRow>, token: string): seq<RefreshRow>
  {
    Seqs.Filter(rows, (r: RefreshRow) => r.token != token)
  }

  /** `DELETE FROM refresh_tokens WHERE user_email = :user_email`. */
  function WithoutOwner(rows: seq<RefreshRow>, owner: string): seq<RefreshRow>
  {
    Seqs.Filter(rows, (r: RefreshRow) => r.userEmail != owner)
  }

  /** Deleting by token removes every row with that value and keeps every other row. */
  lemma WithoutTokenSpec(rows: seq<RefreshRow>, token: string)
    ensures forall r :: r in WithoutToken(rows, token) <==> r in rows && r.token != token
    ensures Seqs.IsSubsequence(WithoutToken(rows, token), rows)
  {
    Seqs.FilterIsSubsequence(rows, (r: RefreshRow) => r.token != token);
  }

  /** Deleting by owner removes every row of that owner and keeps every other owner's row. */
  lemma WithoutOwnerSpec(rows: seq<RefreshRow>, owner: string)
    ensures forall r :: r in WithoutOwner(rows, owner) <==> r in rows && r.userEmail != owner
    ensures Seqs.IsSubsequence(WithoutOwner(rows, owner), rows)
  {
    Seqs.FilterIsSubsequence(rows, (r: RefreshRow) => r.userEmail != owner);
  }

  /** Deleting the same token twice is deleting it once. */
  lemma WithoutTokenIdempotent(rows: seq<RefreshRow>, token: string)
    ensures WithoutToken(WithoutToken(rows, token), token) == WithoutToken(rows, token)
  {
    Seqs.FilterIdempotent(rows, (r: RefreshRow) => r.token != token);
  }

  /** Deleting an owner's rows twice is deleting them once. */
  lemma WithoutOwnerIdempotent(rows: seq<RefreshRow>, owner: string)
    ensures WithoutOwner(WithoutOwner(rows, owner), owner) == WithoutOwner(rows, owner)
  {
    Seqs.FilterIdempotent(rows, (r: RefreshRow) => r.userEmail != owner);
  }

  /**
   * `SELECT user_email FROM refresh_tokens WHERE token = :token AND expires_at < NOW()`,
   * fetched once: the first row with that value whose expiry is already in the past.
   */
  function PastExpiryRow(rows: seq<RefreshRow>, token: string, now: int): Option<RefreshRow>
  {
    Seqs.First(rows, (r: RefreshRow) => r.token == token && r.expiresAt < now)
  }

  // ---------------------------------------------------------------------------
  // Lookups on the other tables.

  /** `SELECT ... FROM usuarios WHERE email = :email`, fetched once. */
  function UserByEmail(users: seq<UserRow>, email: Cell): Option<UserRow>
  {
    Seqs.First(users, (u: UserRow) => SqlEq(u.email, email))
  }

  /** `SELECT COUNT(*) FROM usuarios WHERE email = :email` is positive. */
  predicate EmailTaken(users: seq<UserRow>, email: Cell)
  {
    exists k :: 0 <= k < |users| && SqlEq(users[k].email, email)
  }

  /** Every stored e-mail appears on one row only. */
  predicate UniqueEmails(users: seq<UserRow>)
  {
    forall i, j :: 0 <= i < j < |users| && users[i].email.Some? ==> users[i].email != users[j].email
  }

  /** `id = :id` on `tests`: the integer key compared with the bound text. */
  predicate TestIdIs(t: TestRow, id: Cell)
  {
    SqlEq(Some(IntText(t.id)), id)
  }
}
