/**
 * The predicate builders of `ColumnExpression` (lib/db/column.ts): each pairs the
 * column reference, unchanged, with one fresh operation. A builder's result is
 * pinned down by its two parameterised renderings: the statement names the
 * operator and the argument list holds the operand as given.
 */
module Columns {
  import opened Text
  import opened Expression
  import opened Operations

  function Eq(ce: ColumnExpr, arg: Operand): (p: Predicate)
    ensures p.subject == ce && Statement(p.operation) == "= ?" && Arguments(p.operation) == [arg]
  {
    ColumnPredicate(ce, Scalar(Equal, arg))
  }

  function Ne(ce: ColumnExpr, arg: Operand): (p: Predicate)
    ensures p.subject == ce && Statement(p.operation) == "!= ?" && Arguments(p.operation) == [arg]
  {
    ColumnPredicate(ce, Scalar(NotEqual, arg))
  }

  function Gt(ce: ColumnExpr, arg: Operand): (p: Predicate)
    ensures p.subject == ce && Statement(p.operation) == "> ?" && Arguments(p.operation) == [arg]
  {
    ColumnPredicate(ce, Scalar(GreaterThan, arg))
  }

  function Gte(ce: ColumnExpr, arg: Operand): (p: Predicate)
    ensures p.subject == ce && Statement(p.operation) == ">= ?" && Arguments(p.operation) == [arg]
  {
    ColumnPredicate(ce, Scalar(GreaterThanOrEqual, arg))
  }

  function Lt(ce: ColumnExpr, arg: Operand): (p: Predicate)
    ensures p.subject == ce && Statement(p.operation) == "< ?" && Arguments(p.operation) == [arg]
  {
    ColumnPredicate(ce, Scalar(LessThan, arg))
  }

  function Lte(ce: ColumnExpr, arg: Operand): (p: Predicate)
    ensures p.subject == ce && Statement(p.operation) == "<= ?" && Arguments(p.operation) == [arg]
  {
    ColumnPredicate(ce, Scalar(LessThanOrEqual, arg))
  }

  /** `isNull()`: the same text in both render modes, nothing bound. */
  function IsNullTest(ce: ColumnExpr): (p: Predicate)
    ensures p.subject == ce && Statement(p.operation) == "IS NULL" && Arguments(p.operation) == []
    ensures OperationSql(p.operation) == Statement(p.operation)
  {
    ColumnPredicate(ce, NullTest(IsNull))
  }

  /** A predicate whose operation is a scalar comparison or a null test. */
  ghost predicate Comparison(p: Predicate)
  {
    p.operation.Scalar? || p.operation.NullTest?
  }

  /**
   * A comparison or null-test predicate renders as the column reference, a
   * space, and the operation's statement with its arguments bound in order.
   */
  lemma PredicateBindsStatement(p: Predicate)
    requires Comparison(p)
    ensures PredicateSql(p) == ColumnExprSql(p.subject) + " " + Bind(Statement(p.operation), OperandTexts(Arguments(p.operation)))
  {
    BindingReproducesSql(p.operation);
  }

  /** A column-to-column comparison renders both references qualified by their aliases. */
  lemma ColumnComparison(left: ColumnExpr, right: ColumnExpr)
    ensures PredicateSql(Eq(left, Node(ColumnRef(right)))) == ColumnExprSql(left) + " = " + ColumnExprSql(right)
    ensures Bind(Statement(Eq(left, Node(ColumnRef(right))).operation), [ColumnExprSql(right)]) == "= " + ColumnExprSql(right)
  {
    var arg := Node(ColumnRef(right));
    var p := Eq(left, arg);
    assert p.operation == Scalar(Equal, arg);
    PredicateBindsStatement(p);
    BindingReproducesSql(p.operation);
    assert OperandSql(arg) == ExprSql(ColumnRef(right)) == ColumnExprSql(right);
    assert OperandTexts(Arguments(p.operation)) == [OperandSql(arg)];
    assert OperationSql(p.operation) == "=" + " " + ColumnExprSql(right) == "= " + ColumnExprSql(right);
  }
}
