/**
 * The closed form of `Expression` (lib/db/expression.ts): every node that can be
 * rendered with `toSql`. Operations (lib/db/operation.ts), column references and
 * predicates (lib/db/column.ts) refer to each other (a scalar operator's operand
 * may itself be an Expression), so they and their literal renderings live in this
 * one module; matching on the variant replaces `isExpression` and virtual dispatch.
 *
 * A column reference renders its column's current `name`, a mutable field, so the
 * renderings read the Column objects that the node mentions.
 */
module Expression {
  import opened Optional
  import opened Text
  import opened Schema

  /** The scalar comparison classes `Equal` … `LessThanOrEqual` and `Like`. */
  datatype ScalarOp = Equal | NotEqual | GreaterThan | GreaterThanOrEqual | LessThan | LessThanOrEqual | Like

  /** The array operators `In` and `NotIn`. */
  datatype ArrayOp = In | NotIn

  /** The null tests `IsNull` and `IsNotNull`. */
  datatype NullOp = IsNull | IsNotNull

  /** `Function`: a SQL function name and its plain arguments. */
  datatype Function = Function(name: string, args: seq<Literal>)

  /** The concrete subclasses of `Operation`. */
  datatype Operation =
    | Scalar(sop: ScalarOp, arg: Operand)
    | Membership(aop: ArrayOp, args: seq<Literal>)
    | NullTest(nop: NullOp)
    | Call(fn: Function)

  /** A scalar operand: a plain value, or an Expression (`isExpression(arg)`). */
  datatype Operand = Value(lit: Literal) | Node(expr: Expr)

  /** `ColumnExpression`: a column seen through one TableExpression, with an optional output alias. */
  datatype ColumnExpr = ColumnExpr(table: TableExpr, column: Column, alias: Option<string>)

  /** `ColumnPredicate`: the column under test and the operation applied to it. */
  datatype Predicate = ColumnPredicate(subject: ColumnExpr, operation: Operation)

  datatype Expr =
    | ColumnRef(ce: ColumnExpr)
    | FunctionAs(fn: Function, alias: string)
    | Op(op: Operation)
    | Pred(p: Predicate)

  function ScalarKeyword(k: ScalarOp): string
  {
    match k
    case Equal => "="
    case NotEqual => "!="
    case GreaterThan => ">"
    case GreaterThanOrEqual => ">="
    case LessThan => "<"
    case LessThanOrEqual => "<="
    case Like => "LIKE"
  }

  function ArrayKeyword(k: ArrayOp): string
  {
    match k
    case In => "IN"
    case NotIn => "NOT IN"
  }

  function NullKeyword(k: NullOp): string
  {
    match k
    case IsNull => "IS NULL"
    case IsNotNull => "IS NOT NULL"
  }

  /** The Column objects a node's rendering reads. */
  ghost function ExprRefs(e: Expr): set<object>
  {
    match e
    case ColumnRef(ce) => {ce.column}
    case FunctionAs(_, _) => {}
    case Op(op) => OperationRefs(op)
    case Pred(p) => PredicateRefs(p)
  }

  ghost function OperationRefs(op: Operation): set<object>
  {
    match op
    case Scalar(_, arg) => OperandRefs(arg)
    case Membership(_, _) => {}
    case NullTest(_) => {}
    case Call(_) => {}
  }

  ghost function OperandRefs(o: Operand): set<object>
  {
    match o
    case Value(_) => {}
    case Node(e) => ExprRefs(e)
  }

  ghost function PredicateRefs(p: Predicate): set<object>
  {
    {p.subject.column} + OperationRefs(p.operation)
  }

  ghost function ExprsRefs(es: seq<Expr>): set<object>
  {
    set i, o | 0 <= i < |es| && o in ExprRefs(es[i]) :: o
  }

  ghost function PredicatesRefs(ps: seq<Predicate>): set<object>
  {
    set i, o | 0 <= i < |ps| && o in PredicateRefs(ps[i]) :: o
  }

  ghost function OperandsRefs(os: seq<Operand>): set<object>
  {
    set i, o | 0 <= i < |os| && o in OperandRefs(os[i]) :: o
  }

  /** The text of an unset (`undefined`) name inside a template string. */
  function NameText(name: Option<string>): string
  {
    if name.Some? then name.value else "undefined"
  }

  /** `ColumnExpression.toSql`: `alias.name`, then ` AS out` when the output alias is set and non-empty. */
  function ColumnExprSql(ce: ColumnExpr): string
    reads ce.column
  {
    var qualified := ce.table.alias + "." + NameText(ce.column.name);
    if ce.alias.Some? && ce.alias.value != "" then qualified + " AS " + ce.alias.value else qualified
  }

  /**
   * Both branches of `ColumnExpression.toSql`: the text always starts with
   * `alias.name`, and it goes on with ` AS out` exactly when the output alias
   * is set and non-empty.
   */
  lemma OutputAlias(ce: ColumnExpr)
    ensures var qualified := ce.table.alias + "." + NameText(ce.column.name);
      && ColumnExprSql(ce)[..|qualified|] == qualified
      && (ColumnExprSql(ce) == qualified <==> ce.alias.None? || ce.alias.value == "")
      && (ce.alias.Some? && ce.alias.value != "" ==> ColumnExprSql(ce)[|qualified|..] == " AS " + ce.alias.value)
  {
  }

  /** `Function.toSql`: the plain text of each argument, joined by `, `. */
  function FunctionSql(f: Function): string
  {
    f.name + "(" + Join(LitTexts(f.args), ", ") + ")"
  }

  /** `toSql` of every Expression node. */
  function ExprSql(e: Expr): string
    reads ExprRefs(e)
  {
    match e
    case ColumnRef(ce) => ColumnExprSql(ce)
    case FunctionAs(f, alias) => FunctionSql(f) + " AS " + alias
    case Op(op) => OperationSql(op)
    case Pred(p) => PredicateSql(p)
  }

  /** `toSql` of an operation: the operand rendered inline. */
  function OperationSql(op: Operation): string
    reads OperationRefs(op)
  {
    match op
    case Scalar(k, arg) => ScalarKeyword(k) + " " + OperandSql(arg)
    case Membership(k, args) => ArrayKeyword(k) + "(" + Join(LitTexts(args), ", ") + ")"
    case NullTest(k) => NullKeyword(k)
    case Call(f) => FunctionSql(f)
  }

  /** An operand inline: an Expression by its own `toSql`, a value by its text. */
  function OperandSql(o: Operand): string
    reads OperandRefs(o)
  {
    match o
    case Value(l) => LitText(l)
    case Node(e) => ExprSql(e)
  }

  /** `ColumnPredicate.toSql`: `<column> <operation>`. */
  function PredicateSql(p: Predicate): string
    reads PredicateRefs(p)
  {
    ColumnExprSql(p.subject) + " " + OperationSql(p.operation)
  }

  /** `list.map(s => s.toSql())` over expressions. */
  function ExprSqls(es: seq<Expr>): (r: seq<string>)
    reads ExprsRefs(es)
    ensures |r| == |es| && forall i :: 0 <= i < |es| ==> r[i] == ExprSql(es[i])
  {
    seq(|es|, i requires 0 <= i < |es| reads ExprsRefs(es) => ExprSql(es[i]))
  }

  /** `list.map(s => s.toSql())` over predicates. */
  function PredicateSqls(ps: seq<Predicate>): (r: seq<string>)
    reads PredicatesRefs(ps)
    ensures |r| == |ps| && forall i :: 0 <= i < |ps| ==> r[i] == PredicateSql(ps[i])
  {
    seq(|ps|, i requires 0 <= i < |ps| reads PredicatesRefs(ps) => PredicateSql(ps[i]))
  }

  /** The inline text of each operand, in order. */
  function OperandTexts(os: seq<Operand>): (r: seq<string>)
    reads OperandsRefs(os)
    ensures |r| == |os| && forall i :: 0 <= i < |os| ==> r[i] == OperandSql(os[i])
  {
    seq(|os|, i requires 0 <= i < |os| reads OperandsRefs(os) => OperandSql(os[i]))
  }
}
