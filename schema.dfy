/**
 * Column and table metadata (lib/db/column.ts `Column`, lib/db/table.ts).
 *
 * A Column is an object whose `name` and `table` are stamped later by its table's
 * registration step; every other attribute is fixed by the constructor. A Table
 * carries its fields as an ordered list of keys (the declaration order that
 * `for ... in` visits) and a field map, in place of JavaScript reflection. A
 * TableExpression is an aliased use of a table, or of the plain object that
 * `toSubquery` builds.
 */
module Schema {
  import opened Optional
  import opened Text

  /** A column default: a fixed value or a zero-argument generator. */
  datatype DefaultValue = Fixed(value: Literal) | Generated(generate: () -> Literal)

  /** `ColumnOptions`: every attribute may be left undefined. */
  datatype ColumnOptions = ColumnOptions(
    name: Option<string>,
    defaultValue: Option<DefaultValue>,
    nullable: Option<bool>,
    comment: Option<string>)

  /** The constructor's default parameter `{ nullable: false }`, used when no options are passed. */
  function OmittedColumnOptions(): ColumnOptions
  {
    ColumnOptions(None, None, Some(false), None)
  }

  class Column {
    var name: Option<string>
    var table: Option<Table>
    const defaultValue: Option<DefaultValue>
    const nullable: bool
    const comment: Option<string>

    constructor (options: ColumnOptions)
      ensures name == options.name && table == None
      ensures defaultValue == options.defaultValue && comment == options.comment
      ensures nullable <==> options.nullable == Some(true)
    {
      name := options.name;
      table := None;
      defaultValue := options.defaultValue;
      nullable := if options.nullable.Some? then options.nullable.value else false;
      comment := options.comment;
    }
  }

  /** `new Column()`: the omitted options default to `{ nullable: false }`. */
  method NewColumn() returns (c: Column)
    ensures fresh(c)
    ensures c.name == None && c.table == None && c.defaultValue == None && c.comment == None && !c.nullable
  {
    c := new Column(OmittedColumnOptions());
  }

  /** A field of a table definition: a Column, or any other value (`isColumn` is false). */
  datatype Member = ColumnField(column: Column) | OtherField

  datatype TableOptions = TableOptions(name: Option<string>)

  /** The keys of `ks`, in order, that `m` holds. */
  function Present<V>(ks: seq<string>, m: map<string, V>): (r: seq<string>)
    ensures forall k :: k in r <==> k in ks && k in m
    ensures |r| <= |ks|
  {
    if ks == [] then []
    else if ks[0] in m then [ks[0]] + Present(ks[1..], m)
    else Present(ks[1..], m)
  }

  class Table {
    /** The defining class's name (`this.constructor.name`). */
    const className: string
    /** The options after `options || {}`. */
    const options: TableOptions
    /** `options.name || this.constructor.name`, fixed at construction. */
    const name: string := if options.name.Some? && options.name.value != "" then options.name.value else className
    /** The field identifiers in declaration order. */
    const keys: seq<string>
    const members: map<string, Member>

    /** Note that the source's constructor does not call `register`. */
    constructor (className: string, options: Option<TableOptions>, keys: seq<string>, members: map<string, Member>)
      ensures this.className == className && this.keys == keys && this.members == members
      ensures this.options == if options.Some? then options.value else TableOptions(None)
    {
      this.className := className;
      this.options := if options.Some? then options.value else TableOptions(None);
      this.keys := keys;
      this.members := members;
    }

    /** The stored name: the option when it is non-empty, the class name otherwise. */
    function GetName(): (n: string)
      ensures options.name.Some? && options.name.value != "" ==> n == options.name.value
      ensures options.name.None? || options.name.value == "" ==> n == className
    {
      name
    }

    /** Every declared field, by identifier, whatever its value. */
    function Fields(): map<string, Member>
    {
      map k | k in keys && k in members :: members[k]
    }

    /** The Column-valued fields, by identifier. */
    function Columns(): map<string, Column>
    {
      map k | k in keys && k in members && members[k].ColumnField? :: members[k].column
    }

    ghost function ColumnSet(): set<Column>
    {
      set k | k in keys && k in members && members[k].ColumnField? :: members[k].column
    }

    ghost predicate Holds(k: string, c: Column)
    {
      k in members && members[k] == ColumnField(c)
    }

    /** The last of the keys `ks` whose field holds `c`: registration leaves that name on `c`. */
    ghost function LastHolder(ks: seq<string>, c: Column): (r: Option<string>)
      ensures r.Some? ==> r.value in ks && Holds(r.value, c)
      ensures r.Some? ==> exists i :: 0 <= i < |ks| && ks[i] == r.value && forall j :: i < j < |ks| ==> !Holds(ks[j], c)
      ensures r.None? ==> forall k :: k in ks ==> !Holds(k, c)
    {
      if ks == [] then None
      else if Holds(ks[|ks| - 1], c) then Some(ks[|ks| - 1])
      else
        var init := ks[..|ks| - 1];
        assert forall k :: k in ks ==> k == ks[|ks| - 1] || k in init;
        var r := LastHolder(init, c);
        assert r.Some? ==> exists i :: 0 <= i < |ks| && ks[i] == r.value && forall j :: i < j < |ks| ==> !Holds(ks[j], c) by {
          if r.Some? {
            var i :| 0 <= i < |init| && init[i] == r.value && forall j :: i < j < |init| ==> !Holds(init[j], c);
            assert forall j :: i < j < |ks| ==> !Holds(ks[j], c) by {
              forall j | i < j < |ks|
                ensures !Holds(ks[j], c)
              {
                if j < |init| {
                  assert ks[j] == init[j];
                }
              }
            }
          }
        }
        r
    }

    /** `registerColumn`: stamps the name and the table back-reference, nothing else. */
    method RegisterColumn(c: Column, n: string)
      modifies c
      ensures c.name == Some(n) && c.table == Some(this)
    {
      c.name := Some(n);
      c.table := Some(this);
    }

    /**
     * `register`: every Column-valued field is named after its identifier and
     * points back to this table; other fields are not touched. A column held by
     * two fields keeps the later identifier.
     */
    method Register()
      modifies ColumnSet()
      ensures forall c :: c in ColumnSet() ==> c.name == LastHolder(keys, c) && c.table == Some(this)
    {
      for i := 0 to |keys|
        invariant forall c :: c in ColumnSet() ==>
          if LastHolder(keys[..i], c).Some? then c.name == LastHolder(keys[..i], c) && c.table == Some(this)
          else c.name == old(c.name) && c.table == old(c.table)
      {
        var k := keys[i];
        assert keys[..i + 1][..i] == keys[..i];
        if k in members && members[k].ColumnField? {
          RegisterColumn(members[k].column, k);
        }
      }
      assert keys[..|keys|] == keys;
    }
  }

  /** What a TableExpression wraps: a Table, or the plain object built by `toSubquery`. */
  datatype TableShape =
    | Declared(table: Table)
    | Merged(order: seq<string>, fields: map<string, Member>)
  {
    /** Every field a `for ... in` over the wrapped object yields, by identifier. */
    function Fields(): map<string, Member>
    {
      match this
      case Declared(t) => t.Fields()
      case Merged(order, fields) => map k | k in order && k in fields :: fields[k]
    }

    /** The identifiers of `Fields()` in iteration order. */
    function FieldKeys(): (r: seq<string>)
      ensures forall k :: k in r <==> k in Fields()
    {
      match this
      case Declared(t) => Present(t.keys, Fields())
      case Merged(order, _) => Present(order, Fields())
    }

    /** The Column-valued fields, by identifier. */
    function Columns(): map<string, Column>
    {
      match this
      case Declared(t) => t.Columns()
      case Merged(order, fields) => map k | k in order && k in fields && fields[k].ColumnField? :: fields[k].column
    }

    /** The identifiers of `Columns()` in iteration order. */
    function Keys(): (r: seq<string>)
      ensures forall k :: k in r <==> k in Columns()
    {
      match this
      case Declared(t) => Present(t.keys, t.Columns())
      case Merged(order, fields) => Present(order, Columns())
    }

    /** `constructor.name` of the wrapped object; a plain object literal is an `Object`. */
    function ClassName(): string
    {
      match this
      case Declared(t) => t.className
      case Merged(_, _) => "Object"
    }
  }

  datatype TableExpr = TableExpr(shape: TableShape, alias: string)

  /** The TableExpression constructor: an empty (or omitted) alias falls back to the class name. */
  function NewTableExpr(shape: TableShape, alias: string): (te: TableExpr)
    ensures te.shape == shape
    ensures alias != "" ==> te.alias == alias
    ensures alias == "" ==> te.alias == shape.ClassName()
  {
    TableExpr(shape, if alias != "" then alias else shape.ClassName())
  }

  /** `TableLike.as`: a TableExpression over this very table object, rendering `<name> AS <alias>`. */
  function As(t: Table, alias: string): (te: TableExpr)
    ensures te.shape == Declared(t)
    ensures te.alias == if alias != "" then alias else t.className
    ensures TableSql(te) == Some(t.GetName() + " AS " + te.alias)
  {
    NewTableExpr(Declared(t), alias)
  }

  /**
   * `TableExpression.toSql`: `<table name> AS <alias>`. A `toSubquery` result has
   * no `getName`, so rendering it throws; that is `None` here.
   */
  function TableSql(te: TableExpr): (r: Option<string>)
    ensures r.Some? <==> te.shape.Declared?
  {
    match te.shape
    case Declared(t) => Some(t.GetName() + " AS " + te.alias)
    case Merged(_, _) => None
  }
}
