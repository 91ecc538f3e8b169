/**
 * The SELECT builder of lib/db/query.ts. `SelectQuery1/2/3` share one class
 * here: the arity is the number of participating TableExpressions, fixed at
 * construction. The builder closures receive one column view per participant,
 * in position order, and are modelled as functions of that view list.
 */
module Query {
  import opened Optional
  import opened Text
  import opened Schema
  import opened Expression

  /** `TableQuery`: one ColumnExpression per column identifier of a TableExpression. */
  type View = map<string, ColumnExpr>

  ghost predicate IsViewOf(v: View, te: TableExpr)
  {
    && v.Keys == te.shape.Columns().Keys
    && forall k :: k in v ==> v[k] == ColumnExpr(te, te.shape.Columns()[k], None)
  }

  /** `query(te)`: for each column key of the wrapped table, a reference through `te` with no output alias. */
  method BuildView(te: TableExpr) returns (v: View)
    ensures v.Keys == te.shape.Columns().Keys
    ensures forall k :: k in v ==> v[k] == ColumnExpr(te, te.shape.Columns()[k], None)
  {
    var columns := te.shape.Columns();
    var keys := te.shape.Keys();
    v := map[];
    for i := 0 to |keys|
      invariant v.Keys == set k | k in keys[..i]
      invariant forall k :: k in v ==> k in columns && v[k] == ColumnExpr(te, columns[k], None)
    {
      assert keys[..i + 1] == keys[..i] + [keys[i]];
      v := v[keys[i] := ColumnExpr(te, columns[keys[i]], None)];
    }
    assert keys[..|keys|] == keys;
  }

  /** An identifier that `toSubquery` skips: its first character is `_`. */
  predicate Reserved(id: string)
  {
    |id| > 0 && id[0] == '_'
  }

  ghost function Public(ids: set<string>): set<string>
  {
    set id | id in ids && !Reserved(id)
  }

  /** `where` clause: empty without predicates, else ` WHERE ` and the predicates joined by ` AND `. */
  function WhereClause(wheres: seq<Predicate>): string
    reads PredicatesRefs(wheres)
  {
    if wheres == [] then "" else " WHERE " + Join(PredicateSqls(wheres), " AND ")
  }

  /**
   * The grammar of `toSql`: `SELECT <projections> FROM <t1> [WHERE <p1> AND ...]`.
   * It fails exactly when `<t1>` cannot be rendered.
   */
  function SelectSql(from: TableExpr, selects: seq<Expr>, wheres: seq<Predicate>): (r: Option<string>)
    reads ExprsRefs(selects), PredicatesRefs(wheres)
    ensures r.Some? <==> from.shape.Declared?
  {
    match TableSql(from)
    case None => None
    case Some(source) => Some("SELECT " + Join(ExprSqls(selects), ", ") + " FROM " + source + WhereClause(wheres))
  }

  lemma PredicateSqlsAppend(wheres: seq<Predicate>, p: Predicate)
    ensures PredicateSqls(wheres + [p]) == PredicateSqls(wheres) + [PredicateSql(p)]
  {
  }

  lemma {:induction false} WhereClauseAppend(wheres: seq<Predicate>, p: Predicate)
    ensures WhereClause(wheres + [p]) == (if wheres == [] then " WHERE " else WhereClause(wheres) + " AND ") + PredicateSql(p)
  {
    var last := PredicateSql(p);
    var before := PredicateSqls(wheres);
    PredicateSqlsAppend(wheres, p);
    JoinAppend(before, last, " AND ");
    if wheres == [] {
      assert before == [];
    }
  }

  /** A further `where` adds ` WHERE <p>` to a query without predicates, else ` AND <p>`. */
  lemma {:induction false} WhereExtendsSql(from: TableExpr, selects: seq<Expr>, wheres: seq<Predicate>, p: Predicate)
    requires TableSql(from).Some?
    ensures SelectSql(from, selects, wheres + [p]) ==
      Some(SelectSql(from, selects, wheres).value + (if wheres == [] then " WHERE " else " AND ") + PredicateSql(p))
  {
    WhereClauseAppend(wheres, p);
    var head := "SELECT " + Join(ExprSqls(selects), ", ") + " FROM " + TableSql(from).value;
    var sep := if wheres == [] then " WHERE " else " AND ";
    assert WhereClause(wheres + [p]) == WhereClause(wheres) + sep + PredicateSql(p) by {
      if wheres == [] {
        assert WhereClause(wheres) + sep == sep;
      }
    }
    ConcatAssoc(head, WhereClause(wheres) + sep, PredicateSql(p));
    ConcatAssoc(head, WhereClause(wheres), sep);
  }

  /** The projection list of appended expressions is the old one, `, `, then the new ones, in order. */
  lemma {:induction false} SelectExtendsList(before: seq<Expr>, added: seq<Expr>)
    requires before != [] && added != []
    ensures Join(ExprSqls(before + added), ", ") == Join(ExprSqls(before), ", ") + ", " + Join(ExprSqls(added), ", ")
  {
    assert ExprSqls(before + added) == ExprSqls(before) + ExprSqls(added);
    JoinConcat(ExprSqls(before), ExprSqls(added), ", ");
  }

  /** Joining the four parts of a SELECT without WHERE by spaces gives the grammar's text. */
  lemma PartsSqlHead(projections: string, source: string)
    ensures Join(["SELECT", projections, "FROM", source], " ") == "SELECT " + projections + " FROM " + source
  {
    Join4("SELECT", projections, "FROM", source, " ");
    ConcatAssoc("SELECT" + " " + projections, " ", "FROM");
    ConcatAssoc("SELECT" + " " + projections, " " + "FROM", " ");
  }

  /** Appending `WHERE` and the conditions to the parts adds ` WHERE <conditions>` to their join. */
  lemma PartsSqlWhere(parts: seq<string>, conditions: string)
    requires parts != []
    ensures Join(parts + ["WHERE"] + [conditions], " ") == Join(parts, " ") + " WHERE " + conditions
  {
    JoinAppend(parts, "WHERE", " ");
    JoinAppend(parts + ["WHERE"], conditions, " ");
    ConcatAssoc(Join(parts, " "), " ", "WHERE");
    ConcatAssoc(Join(parts, " "), " " + "WHERE", " ");
  }

  class SelectQuery {
    /** `t1`, `t2`, `t3`, as many as the arity. */
    const tables: seq<TableExpr>
    /** `tq1`, `tq2`, `tq3`: the column view of each table. */
    const views: seq<View>
    /** `_select`. */
    var selects: seq<Expr>
    /** `_where`. */
    var wheres: seq<Predicate>

    ghost predicate Valid()
    {
      && 1 <= |tables| <= 3
      && |views| == |tables|
      && forall i :: 0 <= i < |tables| ==> IsViewOf(views[i], tables[i])
    }

    ghost function Repr(): set<object>
      reads this
    {
      ExprsRefs(selects) + PredicatesRefs(wheres)
    }

    /** The constructors of `SelectQuery1/2/3`: a column view per participant, nothing selected or filtered. */
    constructor (ts: seq<TableExpr>)
      requires 1 <= |ts| <= 3
      ensures tables == ts && Valid()
      ensures selects == [] && wheres == []
    {
      tables := ts;
      var tq1 := BuildView(ts[0]);
      if |ts| == 1 {
        views := [tq1];
      } else {
        var tq2 := BuildView(ts[1]);
        if |ts| == 2 {
          views := [tq1, tq2];
        } else {
          var tq3 := BuildView(ts[2]);
          views := [tq1, tq2, tq3];
        }
      }
      selects := [];
      wheres := [];
    }

    /** `Query.find`: three tables give a 3-table query, two a 2-table query, any other count a 1-table query over the first. */
    static method Find(ts: seq<TableExpr>) returns (q: SelectQuery)
      requires |ts| >= 1
      ensures fresh(q) && q.Valid() && q.selects == [] && q.wheres == []
      ensures q.tables == if |ts| == 2 || |ts| == 3 then ts else [ts[0]]
    {
      if |ts| == 3 {
        assert ts == [ts[0], ts[1], ts[2]];
        q := new SelectQuery([ts[0], ts[1], ts[2]]);
      } else if |ts| == 2 {
        assert ts == [ts[0], ts[1]];
        q := new SelectQuery([ts[0], ts[1]]);
      } else {
        q := new SelectQuery([ts[0]]);
      }
    }

    /** `where(fn)`: the closure's predicate goes to the end of `_where`; the query itself is returned. */
    method Where(fn: seq<View> --> Predicate) returns (self: SelectQuery)
      requires fn.requires(views)
      modifies this
      ensures self == this
      ensures wheres == old(wheres) + [fn(views)] && selects == old(selects)
    {
      wheres := wheres + [fn(views)];
      self := this;
    }

    /** `select(fn)`: the closure's list is concatenated onto `_select`, in order. */
    method Select(fn: seq<View> --> seq<Expr>) returns (self: SelectQuery)
      requires fn.requires(views)
      modifies this
      ensures self == this
      ensures selects == old(selects) + fn(views) && wheres == old(wheres)
    {
      selects := selects + fn(views);
      self := this;
    }

    /**
     * `toSql`: only `t1` is rendered after FROM, whatever the arity. It reads
     * the builder state and changes nothing.
     */
    method ToSql() returns (r: Option<string>)
      requires Valid()
      ensures r.Some? <==> tables[0].shape.Declared?
      ensures r == SelectSql(tables[0], selects, wheres)
    {
      var from := TableSql(tables[0]);
      if from.None? {
        return None;
      }
      var projections := Join(ExprSqls(selects), ", ");
      var parts := ["SELECT"];
      parts := parts + [projections];
      parts := parts + ["FROM"];
      parts := parts + [from.value];
      assert parts == ["SELECT", projections, "FROM", from.value];
      PartsSqlHead(projections, from.value);
      ghost var head := "SELECT " + projections + " FROM " + from.value;
      if |wheres| > 0 {
        var conditions := Join(PredicateSqls(wheres), " AND ");
        PartsSqlWhere(parts, conditions);
        parts := parts + ["WHERE"];
        parts := parts + [conditions];
        ConcatAssoc(head, " WHERE ", conditions);
      } else {
        assert head + WhereClause(wheres) == head;
      }
      assert Join(parts, " ") == "SELECT " + projections + " FROM " + from.value + WhereClause(wheres);
      assert TableSql(tables[0]) == from;
      return Some(Join(parts, " "));
    }

    /**
     * `SelectQuery2.toSubquery`: the fields of both tables under their
     * identifiers, Columns or not, except those starting with `_`; the first
     * table wins on a clash. The plain object is wrapped in a TableExpression
     * with the alias.
     */
    method ToSubquery(alias: string) returns (te: TableExpr)
      requires Valid() && |tables| == 2
      ensures te.shape.Merged?
      ensures te.alias == if alias != "" then alias else "Object"
      ensures te.shape.Fields().Keys == Public(tables[0].shape.Fields().Keys) + Public(tables[1].shape.Fields().Keys)
      ensures forall id :: id in te.shape.Fields() ==>
        te.shape.Fields()[id] == if id in tables[0].shape.Fields() then tables[0].shape.Fields()[id] else tables[1].shape.Fields()[id]
    {
      var first, second := tables[0].shape.Fields(), tables[1].shape.Fields();
      var result, order := CopyPublic(map[], [], tables[0].shape.FieldKeys(), first, true);
      result, order := CopyPublic(result, order, tables[1].shape.FieldKeys(), second, false);
      MergedFields(order, result);
      te := NewTableExpr(Merged(order, result), alias);
      assert result.Keys == Public(first.Keys) + Public(second.Keys);
      assert te.shape.Fields() == result;
    }
  }

  /**
   * One `for (let id in table)` loop of `toSubquery`: copies each field whose
   * identifier does not start with `_`; with `overwrite` false (the second
   * loop's `hasOwnProperty` test) an identifier already present is kept.
   */
  method CopyPublic(result0: map<string, Member>, order0: seq<string>, keys: seq<string>,
                    fields: map<string, Member>, overwrite: bool)
    returns (result: map<string, Member>, order: seq<string>)
    requires forall id :: id in keys <==> id in fields
    requires forall id :: id in order0 <==> id in result0
    ensures forall id :: id in result <==> id in result0 || (id in fields && !Reserved(id))
    ensures forall id :: id in result ==>
      result[id] == if id in fields && !Reserved(id) && (overwrite || id !in result0) then fields[id] else result0[id]
    ensures forall id :: id in order <==> id in result
  {
    result, order := result0, order0;
    for i := 0 to |keys|
      invariant forall id :: id in result <==> id in result0 || (id in keys[..i] && !Reserved(id))
      invariant forall id :: id in result ==>
        result[id] == if id in keys[..i] && !Reserved(id) && (overwrite || id !in result0) then fields[id] else result0[id]
      invariant forall id :: id in order <==> id in result
    {
      assert keys[..i + 1] == keys[..i] + [keys[i]];
      var id := keys[i];
      if Reserved(id) {
        continue;
      }
      if overwrite || id !in result {
        result := result[id := fields[id]];
        order := order + [id];
      }
    }
    assert keys[..|keys|] == keys;
  }

  lemma MergedFields(order: seq<string>, fields: map<string, Member>)
    requires forall id :: id in order <==> id in fields
    ensures Merged(order, fields).Fields() == fields
  {
  }

  /** The columns of a merged object are its Column-valued fields. */
  lemma MergedColumns(order: seq<string>, fields: map<string, Member>)
    ensures forall id :: id in Merged(order, fields).Columns() <==>
      id in Merged(order, fields).Fields() && Merged(order, fields).Fields()[id].ColumnField?
    ensures forall id :: id in Merged(order, fields).Columns() ==>
      Merged(order, fields).Fields()[id] == ColumnField(Merged(order, fields).Columns()[id])
  {
  }

  /** Every entry of a column view renders as `<alias>.<column name>`, without an output alias. */
  lemma ViewEntrySql(v: View, te: TableExpr, id: string)
    requires IsViewOf(v, te) && id in v
    ensures ColumnExprSql(v[id]) == te.alias + "." + NameText(te.shape.Columns()[id].name)
  {
  }
}
