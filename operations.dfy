/**
 * The parameterised renderings of lib/db/operation.ts: `toStatement` (the
 * operator with one `?` per bound argument) and `toArguments` (the values to
 * bind, in placeholder order), and `Function.as`. The literal rendering
 * `toSql` is `Expression.OperationSql`.
 */
module Operations {
  import opened Text
  import opened Expression

  /** `toStatement`. */
  function Statement(op: Operation): string
  {
    match op
    case Scalar(k, _) => ScalarKeyword(k) + " ?"
    case Membership(k, args) => ArrayKeyword(k) + "(" + Placeholders(|args|) + ")"
    case NullTest(k) => NullKeyword(k)
    case Call(f) => f.name + "(" + Placeholders(|f.args|) + ")"
  }

  /** Plain values as bound arguments. */
  function Values(ls: seq<Literal>): (r: seq<Operand>)
    ensures |r| == |ls| && forall i :: 0 <= i < |ls| ==> r[i] == Value(ls[i])
  {
    seq(|ls|, i requires 0 <= i < |ls| => Value(ls[i]))
  }

  /**
   * `toArguments`: a scalar operator binds its one operand, even an Expression;
   * array operators and functions bind their arguments unchanged; null tests
   * inherit the empty list of `Operation`.
   */
  function Arguments(op: Operation): seq<Operand>
  {
    match op
    case Scalar(_, arg) => [arg]
    case Membership(_, args) => Values(args)
    case NullTest(_) => []
    case Call(f) => Values(f.args)
  }

  /** `Function.as`: a projectable `name(args) AS alias`. */
  function As(f: Function, alias: string): (e: Expr)
    ensures ExprSql(e) == OperationSql(Call(f)) + " AS " + alias
    ensures ExprRefs(e) == {}
  {
    FunctionAs(f, alias)
  }

  lemma {:induction false} CountAbsent(c: char, s: string)
    requires c !in s
    ensures Count(c, s) == 0
  {
    if s != [] {
      assert s[0] != c;
      assert forall x :: x in s[1..] ==> x in s;
      CountAbsent(c, s[1..]);
    }
  }

  /** No operator keyword contains a placeholder mark. */
  lemma KeywordsUnmarked(op: Operation)
    ensures op.Scalar? ==> Count('?', ScalarKeyword(op.sop) + " ") == 0
    ensures op.Membership? ==> Count('?', ArrayKeyword(op.aop) + "(") == 0
    ensures op.NullTest? ==> Count('?', NullKeyword(op.nop)) == 0
  {
    match op
    case Scalar(k, _) => CountAbsent('?', ScalarKeyword(k) + " ");
    case Membership(k, _) => CountAbsent('?', ArrayKeyword(k) + "(");
    case NullTest(k) => CountAbsent('?', NullKeyword(k));
    case Call(_) =>
  }

  /**
   * The key relation of the two render modes: the statement holds one `?` per
   * bound argument (a function's name can add marks of its own).
   */
  lemma {:induction false} PlaceholdersMatchArguments(op: Operation)
    ensures Count('?', Statement(op)) == |Arguments(op)| + (if op.Call? then Count('?', op.fn.name) else 0)
  {
    KeywordsUnmarked(op);
    match op
    case Scalar(k, _) =>
      assert Statement(op) == (ScalarKeyword(k) + " ") + "?";
      CountConcat('?', ScalarKeyword(k) + " ", "?");
      assert Count('?', "?") == 1;
    case Membership(k, args) =>
      PlaceholderCount(|args|);
      CountConcat('?', ArrayKeyword(k) + "(", Placeholders(|args|));
      CountConcat('?', ArrayKeyword(k) + "(" + Placeholders(|args|), ")");
      CountAbsent('?', ")");
    case NullTest(_) =>
    case Call(f) =>
      PlaceholderCount(|f.args|);
      CountConcat('?', f.name, "(");
      CountAbsent('?', "(");
      CountConcat('?', f.name + "(", Placeholders(|f.args|));
      CountConcat('?', f.name + "(" + Placeholders(|f.args|), ")");
      CountAbsent('?', ")");
  }

  lemma ValueTexts(ls: seq<Literal>)
    ensures OperandTexts(Values(ls)) == LitTexts(ls)
  {
  }

  /**
   * For scalar operators and null tests, binding the arguments into the
   * statement's placeholders, in order, reproduces the literal rendering.
   */
  lemma {:induction false} BindingReproducesSql(op: Operation)
    requires op.Scalar? || op.NullTest?
    ensures Bind(Statement(op), OperandTexts(Arguments(op))) == OperationSql(op)
  {
    KeywordsUnmarked(op);
    match op
    case Scalar(k, arg) =>
      var t := OperandSql(arg);
      assert OperandTexts(Arguments(op)) == [t];
      assert Statement(op) == (ScalarKeyword(k) + " ") + "?";
      BindPlain(ScalarKeyword(k) + " ", "?", [t]);
      assert Bind("?", [t]) == t;
    case NullTest(k) =>
      BindPlain(NullKeyword(k), "", []);
      assert NullKeyword(k) + "" == NullKeyword(k);
  }

  /**
   * For `IN`, `NOT IN` and function calls, binding yields the argument texts in
   * order, joined by `,` inside the parentheses, where the literal rendering
   * joins the same texts by `, `.
   */
  lemma {:induction false} BindingFillsLists(head: string, args: seq<Literal>, op: Operation)
    requires || (op.Membership? && op.args == args && head == ArrayKeyword(op.aop))
             || (op == Call(Function(head, args)) && Count('?', head) == 0)
    ensures Bind(Statement(op), OperandTexts(Arguments(op))) == head + "(" + Join(LitTexts(args), ",") + ")"
    ensures OperationSql(op) == head + "(" + Join(LitTexts(args), ", ") + ")"
  {
    KeywordsUnmarked(op);
    var texts := LitTexts(args);
    ValueTexts(args);
    CountAbsent('?', "(");
    CountConcat('?', head, "(");
    assert Statement(op) == (head + "(") + (Placeholders(|texts|) + ")");
    BindPlain(head + "(", Placeholders(|texts|) + ")", texts);
    assert texts + [] == texts;
    BindPlaceholders(texts, ")", []);
    assert Bind(")", []) == ")";
  }

  /**
   * `IN`/`NOT IN` statements: exactly N placeholders joined by `,`; zero
   * arguments give `IN()` / `NOT IN()`.
   */
  lemma {:induction false} MembershipStatement(k: ArrayOp, args: seq<Literal>)
    ensures |args| == 0 ==> Statement(Membership(k, args)) == ArrayKeyword(k) + "()"
    ensures var marks := Statement(Membership(k, args))[|ArrayKeyword(k)| + 1 .. |Statement(Membership(k, args))| - 1];
      && |marks| == (if |args| == 0 then 0 else 2 * |args| - 1)
      && forall i :: 0 <= i < |marks| ==> marks[i] == if i % 2 == 0 then '?' else ','
    ensures Count('?', Statement(Membership(k, args))) == |Arguments(Membership(k, args))| == |args|
  {
    PlaceholdersShape(|args|);
    PlaceholdersMatchArguments(Membership(k, args));
    var s := Statement(Membership(k, args));
    assert s[|ArrayKeyword(k)| + 1 .. |s| - 1] == Placeholders(|args|);
  }
}
