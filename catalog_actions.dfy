/**
 * The `/productos` and `/lotes` handlers: fetch the rows whose id is in a list
 * given in the body, through a statement with one positional `?` per id.
 */
module CatalogActions {
  import opened Php
  import opened Sql
  import opened Http
  import opened Schema
  import Seqs

  /** `!$ids || !is_array($ids) || empty($ids)`. */
  predicate NotAnIdList(v: Value)
  {
    Falsy(v) || !v.List?
  }

  /** `col IN (?, ..., ?)` over the first `n` positional bindings; a NULL never matches. */
  predicate InBound(c: Cell, bound: map<nat, Cell>, n: nat)
  {
    exists k :: 1 <= k <= n && k in bound && SqlEq(c, bound[k])
  }

  /** The column equals (as bound text) one of the given ids. */
  predicate IdListed(c: Cell, ids: seq<Value>)
  {
    exists i :: 0 <= i < |ids| && SqlEq(c, Bind(ids[i]))
  }

  /** The positional bindings of the loop: position i+1 holds id i, and no other position is bound. */
  ghost predicate BoundInOrder(bound: map<nat, Cell>, ids: seq<Value>)
  {
    && (forall k :: k in bound <==> 1 <= k <= |ids|)
    && (forall i :: 0 <= i < |ids| ==> bound[i + 1] == Bind(ids[i]))
  }

  /** With the ids bound in order, `IN` selects exactly the listed ids. */
  lemma {:induction false} BoundSelectsListed(c: Cell, bound: map<nat, Cell>, ids: seq<Value>)
    requires BoundInOrder(bound, ids)
    ensures InBound(c, bound, |ids|) <==> IdListed(c, ids)
  {
    if InBound(c, bound, |ids|) {
      var k :| 1 <= k <= |ids| && k in bound && SqlEq(c, bound[k]);
      assert bound[(k - 1) + 1] == Bind(ids[k - 1]);
    }
    if IdListed(c, ids) {
      var i :| 0 <= i < |ids| && SqlEq(c, Bind(ids[i]));
      assert i + 1 in bound && bound[i + 1] == Bind(ids[i]);
    }
  }

  /**
   * The shared part of both handlers: `SELECT * FROM <table> WHERE id IN (?,...,?)`
   * with one `?` per id, then `bindValue($index + 1, $id)` for each id in order.
   */
  method PrepareIdQuery(table: string, ids: seq<Value>) returns (stmt: Statement)
    ensures fresh(stmt)
    ensures stmt.sql == "SELECT * FROM " + table + " WHERE id IN (" + Placeholders(|ids|) + ")"
    ensures BoundInOrder(stmt.bound, ids)
  {
    var placeholders := Placeholders(|ids|);
    stmt := new Statement("SELECT * FROM " + table + " WHERE id IN (" + placeholders + ")");
    var index := 0;
    assert BoundInOrder(stmt.bound, ids[..0]);
    while index < |ids|
      invariant 0 <= index <= |ids|
      invariant stmt.sql == "SELECT * FROM " + table + " WHERE id IN (" + placeholders + ")"
      invariant BoundInOrder(stmt.bound, ids[..index])
    {
      BindNext(stmt.bound, ids, index);
      stmt.BindValue(index + 1, ids[index]);
      index := index + 1;
    }
    assert ids[..index] == ids;
  }

  /** One turn of the binding loop: position index+1 gets id `index`. */
  lemma BindNext(bound: map<nat, Cell>, ids: seq<Value>, index: nat)
    requires index < |ids| && BoundInOrder(bound, ids[..index])
    ensures BoundInOrder(bound[index + 1 := Bind(ids[index])], ids[..index + 1])
  {
    var prefix := ids[..index + 1];
    assert forall i :: 0 <= i < index ==> prefix[i] == ids[..index][i];
  }

  /** The statement text carries one `?` per id, and 2n-1 characters of placeholders. */
  lemma IdQueryShape(ids: seq<Value>)
    requires ids != []
    ensures CountQuestionMarks(Placeholders(|ids|)) == |ids|
    ensures |Placeholders(|ids|)| == 2 * |ids| - 1
  {
    PlaceholdersCount(|ids|);
    PlaceholdersShape(|ids|);
  }

  function ProductoId(p: Producto): Cell
  {
    p.id
  }

  function LoteId(l: Lote): Cell
  {
    l.id
  }

  /** The rows the executed statement fetches: those whose id is among the bound positions. */
  function Fetch<T(!new)>(rows: seq<T>, id: T -> Cell, bound: map<nat, Cell>, n: nat): seq<T>
  {
    Seqs.Filter(rows, (r: T) => InBound(id(r), bound, n))
  }

  /** The rows whose id is one of `ids`, in table order. */
  function WithIds<T(!new)>(rows: seq<T>, id: T -> Cell, ids: seq<Value>): (r: seq<T>)
    ensures forall x :: x in r <==> x in rows && IdListed(id(x), ids)
  {
    Seqs.Filter(rows, (r: T) => IdListed(id(r), ids))
  }

  /** Executing the prepared statement fetches `WithIds`; each row at most once, whatever the duplicates in `ids`. */
  lemma FetchIsWithIds<T(!new)>(rows: seq<T>, id: T -> Cell, bound: map<nat, Cell>, ids: seq<Value>)
    requires BoundInOrder(bound, ids)
    ensures Fetch(rows, id, bound, |ids|) == WithIds(rows, id, ids)
    ensures Seqs.IsSubsequence(WithIds(rows, id, ids), rows)
  {
    forall k | 0 <= k < |rows| ensures InBound(id(rows[k]), bound, |ids|) == IdListed(id(rows[k]), ids) {
      BoundSelectsListed(id(rows[k]), bound, ids);
    }
    Seqs.FilterCongruent(rows, (r: T) => InBound(id(r), bound, |ids|), (r: T) => IdListed(id(r), ids));
    Seqs.FilterIsSubsequence(rows, (r: T) => IdListed(id(r), ids));
  }

  /** `GET /productos/`. */
  method ProductosGet(db: Store, body: Body) returns (res: Response<seq<Producto>>)
    ensures NotAnIdList(Coalesce(body, "productos", Null)) ==>
      res == Error(BAD_REQUEST, "Bad request: proporcione un array con los ids de los productos")
    ensures !NotAnIdList(Coalesce(body, "productos", Null)) ==>
      res == Response(OK, Data(WithIds(db.productos, ProductoId, Coalesce(body, "productos", Null).items)))
  {
    var ids := Coalesce(body, "productos", Null);
    if NotAnIdList(ids) {
      return Error(BAD_REQUEST, "Bad request: proporcione un array con los ids de los productos");
    }
    var stmt := PrepareIdQuery("productos", ids.items);
    FetchIsWithIds(db.productos, ProductoId, stmt.bound, ids.items);
    res := Response(OK, Data(Fetch(db.productos, ProductoId, stmt.bound, |ids.items|)));
  }

  /** `POST /lotes/`. */
  method LotesGet(db: Store, body: Body) returns (res: Response<seq<Lote>>)
    ensures NotAnIdList(Coalesce(body, "lotes", Null)) ==>
      res == Error(BAD_REQUEST, "Bad request: proporcione un array con los ids de los lotes")
    ensures !NotAnIdList(Coalesce(body, "lotes", Null)) ==>
      res == Response(OK, Data(WithIds(db.lotes, LoteId, Coalesce(body, "lotes", Null).items)))
  {
    var ids := Coalesce(body, "lotes", Null);
    if NotAnIdList(ids) {
      return Error(BAD_REQUEST, "Bad request: proporcione un array con los ids de los lotes");
    }
    var stmt := PrepareIdQuery("lotes", ids.items);
    FetchIsWithIds(db.lotes, LoteId, stmt.bound, ids.items);
    res := Response(OK, Data(Fetch(db.lotes, LoteId, stmt.bound, |ids.items|)));
  }
}
