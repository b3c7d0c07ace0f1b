/**
 * What the handlers rely on from SQL and PDO: cells that are text or NULL, the
 * string binding PDO applies to every parameter of `execute(array)` and
 * `bindValue`, three-valued comparison, ORDER BY on a text column, the
 * `implode(...)` text builders, and prepared statements with positional bindings.
 */
module Sql {
  import opened Wrappers
  import opened Php
  import Seqs

  /** A column value: NULL or text (PDO hands every non-null column back as a string). */
  type Cell = Option<string>

  /** How PDO binds a PHP value: null stays NULL, every other value becomes its string form. */
  function Bind(v: Value): (c: Cell)
    ensures c.None? <==> v == Null
  {
    if v == Null then None else Some(Text(v))
  }

  /** A fetched column as a PHP value. */
  function Fetched(c: Cell): (v: Value)
    ensures Bind(v) == c
  {
    match c
    case None => Null
    case Some(s) => Str(s)
  }

  /** `col = :param` in a WHERE clause, under a binary collation: NULL on either side is never equal. */
  predicate SqlEq(col: Cell, param: Cell)
  {
    col.Some? && param.Some? && col.value == param.value
  }

  /** `col != 'literal'` in a WHERE clause: a NULL column satisfies neither `=` nor `!=`. */
  predicate SqlNotEq(col: Cell, literal: string)
  {
    col.Some? && col.value != literal
  }

  // ---------------------------------------------------------------------------
  // ORDER BY on a text column (binary collation): NULL sorts first ascending.

  predicate TextLe(a: string, b: string)
    decreases |a|
  {
    a == [] || (b != [] && (a[0] < b[0] || (a[0] == b[0] && TextLe(a[1..], b[1..]))))
  }

  lemma {:induction false} TextLeTotal(a: string, b: string)
    ensures TextLe(a, b) || TextLe(b, a)
    decreases |a|
  {
    if a != [] && b != [] && a[0] == b[0] {
      TextLeTotal(a[1..], b[1..]);
    }
  }

  lemma {:induction false} TextLeTransitive(a: string, b: string, c: string)
    requires TextLe(a, b) && TextLe(b, c)
    ensures TextLe(a, c)
    decreases |a|
  {
    if a != [] && a[0] == b[0] && b[0] == c[0] {
      TextLeTransitive(a[1..], b[1..], c[1..]);
    }
  }

  predicate CellLe(a: Cell, b: Cell)
  {
    a.None? || (b.Some? && TextLe(a.value, b.value))
  }

  lemma CellLeTotal(a: Cell, b: Cell)
    ensures CellLe(a, b) || CellLe(b, a)
  {
    if a.Some? && b.Some? {
      TextLeTotal(a.value, b.value);
    }
  }

  lemma CellLeTransitive(a: Cell, b: Cell, c: Cell)
    requires CellLe(a, b) && CellLe(b, c)
    ensures CellLe(a, c)
  {
    if a.Some? {
      TextLeTransitive(a.value, b.value, c.value);
    }
  }

  /** `rows` is ordered by `key` descending. */
  predicate SortedDesc<T>(rows: seq<T>, key: T -> Cell)
  {
    forall i, j :: 0 <= i < j < |rows| ==> CellLe(key(rows[j]), key(rows[i]))
  }

  function InsertDesc<T(!new)>(x: T, rows: seq<T>, key: T -> Cell): (r: seq<T>)
    requires SortedDesc(rows, key)
    ensures multiset(r) == multiset(rows) + multiset{x}
    ensures forall y :: y in r <==> y == x || y in rows
    ensures SortedDesc(r, key)
  {
    if rows == [] then [x]
    else if CellLe(key(rows[0]), key(x)) then
      assert forall j :: 0 <= j < |rows| ==> CellLe(key(rows[j]), key(x)) by {
        forall j | 0 <= j < |rows| ensures CellLe(key(rows[j]), key(x)) {
          if j > 0 { CellLeTransitive(key(rows[j]), key(rows[0]), key(x)); }
        }
      }
      [x] + rows
    else
      CellLeTotal(key(rows[0]), key(x));
      var rest := InsertDesc(x, rows[1..], key);
      assert rows == [rows[0]] + rows[1..];
      assert forall y :: y in rest ==> CellLe(key(y), key(rows[0])) by {
        forall y | y in rest ensures CellLe(key(y), key(rows[0])) {
          if y != x {
            var j :| 0 <= j < |rows[1..]| && rows[1..][j] == y;
            assert rows[j + 1] == y;
          }
        }
      }
      [rows[0]] + rest
  }

  /** ORDER BY key DESC: a descending permutation of the rows. */
  function OrderByDesc<T(!new)>(rows: seq<T>, key: T -> Cell): (r: seq<T>)
    ensures multiset(r) == multiset(rows)
    ensures SortedDesc(r, key)
  {
    if rows == [] then []
    else
      assert rows == [rows[0]] + rows[1..];
      InsertDesc(rows[0], OrderByDesc(rows[1..], key), key)
  }

  // ---------------------------------------------------------------------------
  // Text builders.

  /** `implode($sep, $parts)`. */
  function Join(sep: string, parts: seq<string>): string
    decreases |parts|
  {
    if parts == [] then ""
    else if |parts| == 1 then parts[0]
    else Join(sep, parts[..|parts| - 1]) + sep + parts[|parts| - 1]
  }

  /** `implode(',', array_fill(0, $n, '?'))`. */
  function Placeholders(n: nat): string
  {
    Join(",", seq(n, _ => "?"))
  }

  /** The placeholder list is n question marks separated by commas: 2n-1 characters. */
  lemma {:induction false} PlaceholdersShape(n: nat)
    requires n > 0
    ensures |Placeholders(n)| == 2 * n - 1
    ensures forall k :: 0 <= k < |Placeholders(n)| ==> Placeholders(n)[k] == if k % 2 == 0 then '?' else ','
  {
    if n > 1 {
      PlaceholdersShape(n - 1);
      assert seq(n, _ => "?")[..n - 1] == seq(n - 1, _ => "?");
      assert Placeholders(n) == Placeholders(n - 1) + "," + "?";
    } else {
      assert Placeholders(1) == "?";
    }
  }

  /** Counting the '?' marks recovers n: one placeholder per id to bind. */
  function CountQuestionMarks(s: string): nat
  {
    if s == [] then 0 else (if s[0] == '?' then 1 else 0) + CountQuestionMarks(s[1..])
  }

  lemma {:induction false} PlaceholdersCount(n: nat)
    ensures CountQuestionMarks(Placeholders(n)) == n
  {
    if n == 0 {
      assert Placeholders(0) == "";
    } else if n == 1 {
      assert Placeholders(1) == "?";
    } else {
      PlaceholdersCount(n - 1);
      assert seq(n, _ => "?")[..n - 1] == seq(n - 1, _ => "?");
      assert Placeholders(n) == Placeholders(n - 1) + ",?";
      CountAppend(Placeholders(n - 1), ",?");
    }
  }

  lemma {:induction false} CountAppend(a: string, b: string)
    ensures CountQuestionMarks(a + b) == CountQuestionMarks(a) + CountQuestionMarks(b)
  {
    if a == [] {
      assert a + b == b;
    } else {
      assert (a + b)[1..] == a[1..] + b;
      CountAppend(a[1..], b);
    }
  }

  // ---------------------------------------------------------------------------
  // Object properties and the column lists built from them.

  /** A public property of a domain object and its current value (null when unset). */
  datatype Prop = Prop(name: string, value: Value)

  predicate DistinctNames(props: seq<Prop>)
  {
    forall i, j :: 0 <= i < j < |props| ==> props[i].name != props[j].name
  }

  /** The properties the `foreach (get_object_vars($this) ...)` loops keep: set and not excluded. */
  function Assigned(props: seq<Prop>, excluded: set<string>): seq<Prop>
  {
    Seqs.Filter(props, (q: Prop) => q.name !in excluded && q.value != Null)
  }

  lemma AssignedSnoc(props: seq<Prop>, q: Prop, excluded: set<string>)
    ensures Assigned(props + [q], excluded)
         == Assigned(props, excluded) + (if q.name !in excluded && q.value != Null then [q] else [])
  {
    Seqs.FilterAppend(props, [q], (q: Prop) => q.name !in excluded && q.value != Null);
  }

  /** Every kept property is a set, non-excluded property of the object. */
  lemma AssignedFrom(props: seq<Prop>, excluded: set<string>)
    ensures forall k :: 0 <= k < |Assigned(props, excluded)| ==>
      Assigned(props, excluded)[k] in props && Assigned(props, excluded)[k].value != Null &&
      Assigned(props, excluded)[k].name !in excluded
  {
    var a := Assigned(props, excluded);
    forall k | 0 <= k < |a| ensures a[k] in props && a[k].value != Null && a[k].name !in excluded {
      assert a[k] in a;
    }
  }

  /** The names of a list of properties. */
  function Names(props: seq<Prop>): set<string>
  {
    if props == [] then {} else Names(props[..|props| - 1]) + {props[|props| - 1].name}
  }

  lemma {:induction false} NamesIndexed(props: seq<Prop>, n: string)
    ensures n in Names(props) <==> exists i :: 0 <= i < |props| && props[i].name == n
  {
    if props != [] {
      NamesIndexed(props[..|props| - 1], n);
    }
  }

  /** With distinct names, the next property's name has not been seen before it. */
  lemma FreshName(props: seq<Prop>, k: nat)
    requires DistinctNames(props) && k < |props|
    ensures props[k].name !in Names(props[..k])
  {
    NamesIndexed(props[..k], props[k].name);
  }

  /** Keeping some of the properties keeps some of the names. */
  lemma AssignedNames(props: seq<Prop>, excluded: set<string>)
    ensures Names(Assigned(props, excluded)) <= Names(props)
  {
    var a := Assigned(props, excluded);
    forall n | n in Names(a) ensures n in Names(props) {
      NamesIndexed(a, n);
      var i :| 0 <= i < |a| && a[i].name == n;
      assert a[i] in props;
      var j :| 0 <= j < |props| && props[j] == a[i];
      NamesIndexed(props, n);
    }
  }

  /** "p = :p", one entry of an UPDATE's SET list. */
  function SetClause(name: string): string
  {
    name + " = :" + name
  }

  /** One step of the column-list loops: the property at k is either kept or skipped. */
  lemma AssignedStep(props: seq<Prop>, k: nat, excluded: set<string>)
    requires DistinctNames(props) && k < |props|
    ensures Assigned(props[..k + 1], excluded)
         == Assigned(props[..k], excluded) + (if props[k].name !in excluded && props[k].value != Null then [props[k]] else [])
    ensures props[k].name !in Names(Assigned(props[..k], excluded))
  {
    assert props[..k + 1] == props[..k] + [props[k]];
    AssignedSnoc(props[..k], props[k], excluded);
    FreshName(props, k);
    AssignedNames(props[..k], excluded);
  }

  /** `fields` and `values` are the SET list and the bindings built from `kept`. */
  predicate SetListOf(kept: seq<Prop>, fields: seq<string>, values: map<string, Value>)
  {
    && |fields| == |kept|
    && (forall i :: 0 <= i < |fields| ==> fields[i] == SetClause(kept[i].name))
    && BindingsOf(kept, values)
  }

  /** `values` binds exactly the names of `kept`, each to its property's value. */
  predicate BindingsOf(kept: seq<Prop>, values: map<string, Value>)
  {
    && values.Keys == Names(kept)
    && (forall i :: 0 <= i < |kept| ==> kept[i].name in values && values[kept[i].name] == kept[i].value)
  }

  lemma BindingsExtend(kept: seq<Prop>, values: map<string, Value>, q: Prop)
    requires BindingsOf(kept, values) && q.name !in Names(kept)
    ensures BindingsOf(kept + [q], values[q.name := q.value])
  {
    var kept', values' := kept + [q], values[q.name := q.value];
    assert kept'[..|kept'| - 1] == kept;
    assert Names(kept') == Names(kept) + {q.name};
    assert values'.Keys == values.Keys + {q.name};
    forall i | 0 <= i < |kept'| ensures kept'[i].name in values' && values'[kept'[i].name] == kept'[i].value {
      if i < |kept| {
        assert kept'[i] == kept[i];
        assert kept[i].name in values.Keys;
        assert kept[i].name != q.name;
      }
    }
  }

  lemma SetListExtend(kept: seq<Prop>, fields: seq<string>, values: map<string, Value>, q: Prop)
    requires SetListOf(kept, fields, values) && q.name !in Names(kept)
    ensures SetListOf(kept + [q], fields + [SetClause(q.name)], values[q.name := q.value])
  {
    BindingsExtend(kept, values, q);
  }

  /**
   * The loop of `Usuario::save` and `Test::save`: one "p = :p" per set property,
   * in declaration order, and the value bound to each name.
   */
  method BuildSetList(props: seq<Prop>, excluded: set<string>) returns (fields: seq<string>, values: map<string, Value>)
    requires DistinctNames(props)
    ensures SetListOf(Assigned(props, excluded), fields, values)
    ensures BindsEach(props, excluded, values)
    ensures |fields| == 0 <==> NoneAssigned(props, excluded)
  {
    fields, values := [], map[];
    ghost var kept: seq<Prop> := [];
    var k := 0;
    while k < |props|
      invariant 0 <= k <= |props|
      invariant kept == Assigned(props[..k], excluded)
      invariant SetListOf(kept, fields, values)
    {
      var q := props[k];
      AssignedStep(props, k, excluded);
      if q.name !in excluded && q.value != Null {
        SetListExtend(kept, fields, values, q);
        fields := fields + [SetClause(q.name)];
        values := values[q.name := q.value];
        kept := kept + [q];
      }
      k := k + 1;
    }
    assert props[..k] == props;
    BindingsEach(props, excluded, values);
    AssignedEmpty(props, excluded);
  }

  /** `fields`, `placeholders` and `values` are the INSERT lists built from `kept`. */
  predicate InsertListsOf(kept: seq<Prop>, fields: seq<string>, placeholders: seq<string>, values: map<string, Value>)
  {
    && |fields| == |placeholders| == |kept|
    && (forall i :: 0 <= i < |fields| ==> fields[i] == kept[i].name)
    && (forall i :: 0 <= i < |fields| ==> placeholders[i] == ":" + fields[i])
    && BindingsOf(kept, values)
  }

  lemma InsertListsExtend(kept: seq<Prop>, fields: seq<string>, placeholders: seq<string>,
                          values: map<string, Value>, q: Prop)
    requires InsertListsOf(kept, fields, placeholders, values) && q.name !in Names(kept)
    ensures InsertListsOf(kept + [q], fields + [q.name], placeholders + [":" + q.name], values[q.name := q.value])
  {
    BindingsExtend(kept, values, q);
  }

  /**
   * The loop of `Test::create`: the column names of the set properties, in
   * declaration order, a ":p" placeholder aligned with each, and the value bound to each.
   */
  method BuildInsertLists(props: seq<Prop>, excluded: set<string>)
    returns (fields: seq<string>, placeholders: seq<string>, values: map<string, Value>)
    requires DistinctNames(props)
    ensures InsertListsOf(Assigned(props, excluded), fields, placeholders, values)
    ensures BindsEach(props, excluded, values)
    ensures |fields| == 0 <==> NoneAssigned(props, excluded)
  {
    fields, placeholders, values := [], [], map[];
    ghost var kept: seq<Prop> := [];
    var k := 0;
    while k < |props|
      invariant 0 <= k <= |props|
      invariant kept == Assigned(props[..k], excluded)
      invariant InsertListsOf(kept, fields, placeholders, values)
    {
      var q := props[k];
      AssignedStep(props, k, excluded);
      if q.name !in excluded && q.value != Null {
        InsertListsExtend(kept, fields, placeholders, values, q);
        fields := fields + [q.name];
        placeholders := placeholders + [":" + q.name];
        values := values[q.name := q.value];
        kept := kept + [q];
      }
      k := k + 1;
    }
    assert props[..k] == props;
    BindingsEach(props, excluded, values);
    AssignedEmpty(props, excluded);
  }

  /**
   * With distinct names, the bindings built from the kept properties hold a
   * property's name exactly when that property was kept, bound to its value.
   */
  lemma {:induction false} BindingsLookup(props: seq<Prop>, excluded: set<string>, values: map<string, Value>, i: nat)
    requires DistinctNames(props) && i < |props|
    requires BindingsOf(Assigned(props, excluded), values)
    ensures props[i].name in values <==> props[i].name !in excluded && props[i].value != Null
    ensures props[i].name in values ==> values[props[i].name] == props[i].value
  {
    if props[i].name !in excluded && props[i].value != Null {
      KeptIsBound(props, excluded, values, i);
    } else {
      SkippedIsUnbound(props, excluded, values, i);
    }
  }

  /** A kept property is bound to its value. */
  lemma KeptIsBound(props: seq<Prop>, excluded: set<string>, values: map<string, Value>, i: nat)
    requires i < |props| && BindingsOf(Assigned(props, excluded), values)
    requires props[i].name !in excluded && props[i].value != Null
    ensures props[i].name in values && values[props[i].name] == props[i].value
  {
    var a := Assigned(props, excluded);
    assert props[i] in a;
    var j :| 0 <= j < |a| && a[j] == props[i];
  }

  /** A skipped property's name is bound to nothing, since no kept property shares it. */
  lemma SkippedIsUnbound(props: seq<Prop>, excluded: set<string>, values: map<string, Value>, i: nat)
    requires DistinctNames(props) && i < |props| && BindingsOf(Assigned(props, excluded), values)
    requires !(props[i].name !in excluded && props[i].value != Null)
    ensures props[i].name !in values
  {
    var a := Assigned(props, excluded);
    forall j | 0 <= j < |a| ensures a[j].name != props[i].name {
      var q := a[j];
      assert q in a;
      var m :| 0 <= m < |props| && props[m] == q;
      assert m != i ==> props[m].name != props[i].name;
    }
    NamesIndexed(a, props[i].name);
  }

  /** `values` binds each set, non-excluded property to its value, and no other property. */
  predicate BindsEach(props: seq<Prop>, excluded: set<string>, values: map<string, Value>)
  {
    forall k :: 0 <= k < |props| ==>
      && (props[k].name in values <==> props[k].name !in excluded && props[k].value != Null)
      && (props[k].name in values ==> values[props[k].name] == props[k].value)
  }

  /** `values` binds `name` exactly when the property is set, to the property's value. */
  predicate Binds(values: map<string, Value>, name: string, v: Value)
  {
    (name in values <==> v != Null) && (name in values ==> values[name] == v)
  }

  /**
   * A column after a statement that names the set properties only: a set property
   * overwrites it (with its string binding), an unset one leaves it as it was.
   */
  function Overwrite(c: Cell, v: Value): Cell
  {
    if v == Null then c else Bind(v)
  }


  /** The column a SET or column list writes from `values`, or the old content when `name` is not bound. */
  function Assign(c: Cell, values: map<string, Value>, name: string): (r: Cell)
    ensures forall v :: Binds(values, name, v) ==> r == Overwrite(c, v)
  {
    if name in values then Bind(values[name]) else c
  }

  /** Whether no property would be kept: each one is excluded or unset. */
  predicate NoneAssigned(props: seq<Prop>, excluded: set<string>)
  {
    forall k :: 0 <= k < |props| ==> props[k].name in excluded || props[k].value == Null
  }

  lemma BindingsEach(props: seq<Prop>, excluded: set<string>, values: map<string, Value>)
    requires DistinctNames(props) && BindingsOf(Assigned(props, excluded), values)
    ensures BindsEach(props, excluded, values)
  {
    forall k | 0 <= k < |props|
      ensures props[k].name in values <==> props[k].name !in excluded && props[k].value != Null
      ensures props[k].name in values ==> values[props[k].name] == props[k].value
    {
      BindingsLookup(props, excluded, values, k);
    }
  }

  /** Nothing is kept exactly when every property is excluded or unset. */
  lemma AssignedEmpty(props: seq<Prop>, excluded: set<string>)
    ensures Assigned(props, excluded) == [] <==> NoneAssigned(props, excluded)
  {
    var p := (q: Prop) => q.name !in excluded && q.value != Null;
    if NoneAssigned(props, excluded) {
      Seqs.FilterKeepsNone(props, p);
    } else {
      var k :| 0 <= k < |props| && p(props[k]);
      assert props[k] in Assigned(props, excluded);
    }
  }

  // ---------------------------------------------------------------------------
  // Statement outcomes.

  /** What the database made of a statement: it ran, or it failed with a driver message. */
  datatype Execution = Executes | Fails(message: string)

  /** The `['success' => ..., 'error' => ...]` arrays the domain objects return. */
  datatype Outcome = Success | Failure(error: string)

  /** PDO's message for a named parameter that the statement uses but nothing binds. */
  const UnboundParameter := "SQLSTATE[HY093]: Invalid parameter number: parameter was not defined"

  /** A prepared statement and the values bound to its positional parameters. */
  class Statement {
    const sql: string
    var bound: map<nat, Cell>

    constructor (sql: string)
      ensures this.sql == sql && bound == map[]
    {
      this.sql := sql;
      bound := map[];
    }

    /** `$stmt->bindValue($position, $v)`: bound as a string, like every PDO parameter by default. */
    method BindValue(position: nat, v: Value)
      modifies this
      ensures bound == old(bound)[position := Bind(v)]
    {
      bound := bound[position := Bind(v)];
    }
  }
}
