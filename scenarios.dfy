/**
 * The demonstration in lib/db/test.ts: three tables whose columns are named
 * after their fields, aliased `u`, `a` and `c`, and the four queries built over
 * them, each with the exact text it renders.
 */
module Scenarios {
  import opened Optional
  import opened Text
  import opened Schema
  import opened Expression
  import Operations
  import Columns
  import opened Query

  const UserFields := ["id", "firstName", "order"]
  const AvatarFields := ["id", "url", "userId"]
  const ContentFields := ["id", "name", "slug", "userId"]

  /**
   * The shape of `new <className>().as(alias)` for a table class whose fields,
   * in order, are the columns `ids`. It does not depend on the columns' state.
   */
  ghost predicate Shape(te: TableExpr, className: string, alias: string, ids: seq<string>)
  {
    && te.shape.Declared? && te.shape.table.className == className && te.shape.table.GetName() == className
    && te.alias == alias
    && te.shape.Columns().Keys == set k | k in ids
  }

  /** Every field of the table expression is a column. */
  ghost predicate OnlyColumns(te: TableExpr)
  {
    && te.shape.Fields().Keys == te.shape.Columns().Keys
    && forall k :: k in te.shape.Fields() ==> te.shape.Fields()[k] == ColumnField(te.shape.Columns()[k])
  }

  /** The column under identifier `k` is named after it. */
  ghost predicate Named(te: TableExpr, k: string)
    reads if k in te.shape.Columns() then {te.shape.Columns()[k]} else {}
  {
    k in te.shape.Columns() && te.shape.Columns()[k].name == Some(k)
  }

  /** A demonstration table: its shape, and every column named after its identifier. */
  ghost predicate Fixture(te: TableExpr, className: string, alias: string, ids: seq<string>)
    reads te.shape.Columns().Values
  {
    && Shape(te, className, alias, ids)
    && forall k :: k in te.shape.Columns() ==> te.shape.Columns()[k].name == Some(k)
  }

  method Define(className: string, alias: string, ids: seq<string>) returns (te: TableExpr)
    requires alias != ""
    ensures Fixture(te, className, alias, ids) && OnlyColumns(te) && fresh(te.shape.Columns().Values)
  {
    var members: map<string, Member> := map[];
    for i := 0 to |ids|
      invariant members.Keys == set k | k in ids[..i]
      invariant forall k :: k in members ==> members[k].ColumnField? && fresh(members[k].column)
      invariant forall k :: k in members ==> members[k].column.name == Some(k)
    {
      assert ids[..i + 1] == ids[..i] + [ids[i]];
      var c := new Column(ColumnOptions(Some(ids[i]), None, None, None));
      members := members[ids[i] := ColumnField(c)];
    }
    assert ids[..|ids|] == ids;
    var t := new Table(className, None, ids, members);
    te := Schema.As(t, alias);
  }

  /** The three table expressions of the demonstration, each over its own fresh columns. */
  method Fixtures() returns (users: TableExpr, avatars: TableExpr, contents: TableExpr)
    ensures Fixture(users, "User", "u", UserFields) && OnlyColumns(users)
    ensures Fixture(avatars, "Avatar", "a", AvatarFields) && OnlyColumns(avatars)
    ensures Fixture(contents, "Content", "c", ContentFields)
    ensures "id" in users.shape.Columns() && "id" in avatars.shape.Columns()
    ensures users.shape.Columns()["id"] != avatars.shape.Columns()["id"]
  {
    users := Define("User", "u", UserFields);
    avatars := Define("Avatar", "a", AvatarFields);
    assert "id" in users.shape.Columns() && "id" in avatars.shape.Columns();
    assert avatars.shape.Columns()["id"] in avatars.shape.Columns().Values;
    contents := Define("Content", "c", ContentFields);
  }

  /** Every field of a fixture is a named column. */
  lemma FixtureNamed(te: TableExpr, className: string, alias: string, ids: seq<string>, k: string)
    requires Fixture(te, className, alias, ids) && k in ids
    ensures Named(te, k)
  {
  }

  /** A named column is seen through a view of its table as `alias.field`. */
  lemma ViewRefers(v: View, te: TableExpr, alias: string, k: string)
    requires IsViewOf(v, te) && te.alias == alias && Named(te, k)
    ensures k in v && Refers(v[k], alias, k)
  {
  }

  function Now(): Expression.Function
  {
    Function("NOW", [])
  }

  /** The closures of the demonstration, over the column views in position order. */
  function UsersSelection(vs: seq<View>): seq<Expr>
    requires |vs| >= 1 && "id" in vs[0] && "firstName" in vs[0]
  {
    [ColumnRef(vs[0]["id"]), ColumnRef(vs[0]["firstName"]), Operations.As(Now(), "now")]
  }

  function UsersCondition(vs: seq<View>): Predicate
    requires |vs| >= 1 && "id" in vs[0]
  {
    Columns.Gt(vs[0]["id"], Value(LInt(4)))
  }

  function UsersAvatarsSelection(vs: seq<View>): seq<Expr>
    requires |vs| >= 2 && "firstName" in vs[0] && "url" in vs[1]
  {
    [ColumnRef(vs[0]["firstName"]), ColumnRef(vs[1]["url"])]
  }

  function AvatarOwner(vs: seq<View>): Predicate
    requires |vs| >= 2 && "id" in vs[0] && "userId" in vs[1]
  {
    Columns.Eq(vs[1]["userId"], Node(ColumnRef(vs[0]["id"])))
  }

  function AllSelection(vs: seq<View>): seq<Expr>
    requires |vs| >= 3 && "firstName" in vs[0] && "url" in vs[1] && "name" in vs[2] && "slug" in vs[2]
  {
    [ColumnRef(vs[0]["firstName"]), ColumnRef(vs[1]["url"]), ColumnRef(vs[2]["name"]), ColumnRef(vs[2]["slug"])]
  }

  function SubquerySelection(vs: seq<View>): seq<Expr>
    requires |vs| >= 2 && "id" in vs[0] && "name" in vs[1] && "slug" in vs[1]
  {
    [ColumnRef(vs[0]["id"]), ColumnRef(vs[1]["name"]), ColumnRef(vs[1]["slug"])]
  }

  /** A column reference through the table aliased `alias`, to the column named `name`, with no output alias. */
  ghost predicate Refers(ce: ColumnExpr, alias: string, name: string)
    reads ce.column
  {
    ce.table.alias == alias && ce.column.name == Some(name) && ce.alias == None
  }

  /** The grammar of `SelectSql` for a renderable source and at least one predicate. */
  lemma SelectText(from: TableExpr, selects: seq<Expr>, wheres: seq<Predicate>, source: string, projections: string, conditions: string)
    requires TableSql(from) == Some(source) && wheres != []
    requires Join(ExprSqls(selects), ", ") == projections && Join(PredicateSqls(wheres), " AND ") == conditions
    ensures SelectSql(from, selects, wheres) == Some("SELECT " + projections + " FROM " + source + " WHERE " + conditions)
  {
    var head := "SELECT " + projections + " FROM " + source;
    assert WhereClause(wheres) == " WHERE " + conditions;
    assert head + (" WHERE " + conditions) == head + " WHERE " + conditions;
  }

  lemma UsersFrom(users: TableExpr)
    requires users.shape.Declared? && users.shape.table.GetName() == "User" && users.alias == "u"
    ensures TableSql(users) == Some("User AS u")
  {
    assert TableSql(users) == Some("User" + " AS " + "u");
    assert "User" + " AS " + "u" == "User AS u";
  }

  /** `NOW().as('now')` renders as `NOW() AS now`. */
  lemma NowProjection()
    ensures ExprSql(Operations.As(Now(), "now")) == "NOW() AS now"
  {
    assert Join(LitTexts([]), ", ") == "";
    assert FunctionSql(Now()) == "NOW()";
  }

  lemma FindUsersList()
    ensures "u.id" + ", " + "u.firstName" + ", " + "NOW() AS now" == "u.id, u.firstName, NOW() AS now"
  {
    assert "u.id" + ", " + "u.firstName" == "u.id, u.firstName";
  }

  lemma FindUsersProjections(id: ColumnExpr, firstName: ColumnExpr)
    requires Refers(id, "u", "id") && Refers(firstName, "u", "firstName")
    ensures Join(ExprSqls([ColumnRef(id), ColumnRef(firstName), Operations.As(Now(), "now")]), ", ") == "u.id, u.firstName, NOW() AS now"
  {
    var selects := [ColumnRef(id), ColumnRef(firstName), Operations.As(Now(), "now")];
    NowProjection();
    assert ColumnExprSql(id) == "u.id" && ColumnExprSql(firstName) == "u.firstName";
    assert ExprSqls(selects) == ["u.id", "u.firstName", "NOW() AS now"];
    Join3("u.id", "u.firstName", "NOW() AS now", ", ");
    FindUsersList();
  }

  lemma FindUsersConditions(id: ColumnExpr)
    requires Refers(id, "u", "id")
    ensures Join(PredicateSqls([Columns.Gt(id, Value(LInt(4)))]), " AND ") == "u.id > 4"
  {
    var wheres := [Columns.Gt(id, Value(LInt(4)))];
    assert ColumnExprSql(id) == "u.id";
    assert "0123456789"[4] == '4';
    assert LitText(LInt(4)) == "4";
    assert wheres[0] == ColumnPredicate(id, Scalar(GreaterThan, Value(LInt(4))));
    assert OperationSql(wheres[0].operation) == ">" + " " + "4";
    assert PredicateSql(wheres[0]) == "u.id" + " " + "> 4";
    assert PredicateSql(wheres[0]) == "u.id > 4";
    assert PredicateSqls(wheres) == ["u.id > 4"];
    assert Join(["u.id > 4"], " AND ") == "u.id > 4";
  }

  lemma FindUsersHead()
    ensures "SELECT " + "u.id, u.firstName, NOW() AS now" + " FROM " == "SELECT u.id, u.firstName, NOW() AS now FROM "
  {
    assert "SELECT " + "u.id, u.firstName, NOW() AS now" == "SELECT u.id, u.firstName, NOW() AS now";
  }

  lemma FindUsersTail()
    ensures "SELECT u.id, u.firstName, NOW() AS now FROM " + "User AS u" + " WHERE " + "u.id > 4"
         == "SELECT u.id, u.firstName, NOW() AS now FROM User AS u WHERE u.id > 4"
  {
    assert "SELECT u.id, u.firstName, NOW() AS now FROM " + "User AS u" == "SELECT u.id, u.firstName, NOW() AS now FROM User AS u";
    assert "SELECT u.id, u.firstName, NOW() AS now FROM User AS u" + " WHERE " == "SELECT u.id, u.firstName, NOW() AS now FROM User AS u WHERE ";
  }

  lemma FindUsersText()
    ensures "SELECT " + "u.id, u.firstName, NOW() AS now" + " FROM " + "User AS u" + " WHERE " + "u.id > 4"
         == "SELECT u.id, u.firstName, NOW() AS now FROM User AS u WHERE u.id > 4"
  {
    FindUsersHead();
    FindUsersTail();
  }

  lemma FindUsersSql(users: TableExpr, id: ColumnExpr, firstName: ColumnExpr)
    requires users.shape.Declared? && users.shape.table.GetName() == "User" && users.alias == "u"
    requires Refers(id, "u", "id") && Refers(firstName, "u", "firstName")
    ensures SelectSql(users, [ColumnRef(id), ColumnRef(firstName), Operations.As(Now(), "now")], [Columns.Gt(id, Value(LInt(4)))])
         == Some("SELECT u.id, u.firstName, NOW() AS now FROM User AS u WHERE u.id > 4")
  {
    UsersFrom(users);
    FindUsersProjections(id, firstName);
    FindUsersConditions(id);
    SelectText(users, [ColumnRef(id), ColumnRef(firstName), Operations.As(Now(), "now")], [Columns.Gt(id, Value(LInt(4)))],
      "User AS u", "u.id, u.firstName, NOW() AS now", "u.id > 4");
    FindUsersText();
  }

  lemma FindUsersRendered(q: SelectQuery)
    requires q.Valid() && q.tables == [q.tables[0]] && Shape(q.tables[0], "User", "u", UserFields)
    requires Named(q.tables[0], "id") && Named(q.tables[0], "firstName")
    requires "id" in q.views[0] && "firstName" in q.views[0]
    requires q.selects == UsersSelection(q.views) && q.wheres == [UsersCondition(q.views)]
    ensures SelectSql(q.tables[0], q.selects, q.wheres) == Some("SELECT u.id, u.firstName, NOW() AS now FROM User AS u WHERE u.id > 4")
  {
    var tq1 := q.views[0];
    ViewRefers(tq1, q.tables[0], "u", "id");
    ViewRefers(tq1, q.tables[0], "u", "firstName");
    FindUsersSql(q.tables[0], tq1["id"], tq1["firstName"]);
  }

  /** `Query.find(u).select(...).where(...)` of `q1`. */
  method UsersQuery(users: TableExpr) returns (q: SelectQuery)
    requires "id" in users.shape.Columns() && "firstName" in users.shape.Columns()
    ensures fresh(q) && q.Valid() && q.tables == [users]
    ensures "id" in q.views[0] && "firstName" in q.views[0]
    ensures q.selects == UsersSelection(q.views) && q.wheres == [UsersCondition(q.views)]
  {
    q := SelectQuery.Find([users]);
    q := q.Select(UsersSelection);
    q := q.Where(UsersCondition);
  }

  /** `q1`: one table, a function projection, a comparison with a number. */
  method FindUsers() returns (sql: Option<string>)
    ensures sql == Some("SELECT u.id, u.firstName, NOW() AS now FROM User AS u WHERE u.id > 4")
  {
    var users := Define("User", "u", UserFields);
    FixtureNamed(users, "User", "u", UserFields, "id");
    FixtureNamed(users, "User", "u", UserFields, "firstName");
    var q := UsersQuery(users);
    sql := q.ToSql();
    FindUsersRendered(q);
  }

  /** `a.userId.eq(u.id)`, the join condition of `q2` and `q3`. */
  lemma JoinCondition(userId: ColumnExpr, id: ColumnExpr)
    requires Refers(userId, "a", "userId") && Refers(id, "u", "id")
    ensures Join(PredicateSqls([Columns.Eq(userId, Node(ColumnRef(id)))]), " AND ") == "a.userId = u.id"
  {
    var wheres := [Columns.Eq(userId, Node(ColumnRef(id)))];
    Columns.ColumnComparison(userId, id);
    assert ColumnExprSql(userId) == "a.userId" && ColumnExprSql(id) == "u.id";
    assert "a.userId" + " = " + "u.id" == "a.userId = u.id";
    assert PredicateSqls(wheres) == ["a.userId = u.id"];
  }

  lemma FindUsersAvatarsProjections(firstName: ColumnExpr, url: ColumnExpr)
    requires Refers(firstName, "u", "firstName") && Refers(url, "a", "url")
    ensures Join(ExprSqls([ColumnRef(firstName), ColumnRef(url)]), ", ") == "u.firstName, a.url"
  {
    var selects := [ColumnRef(firstName), ColumnRef(url)];
    assert ColumnExprSql(firstName) == "u.firstName" && ColumnExprSql(url) == "a.url";
    assert ExprSqls(selects) == ["u.firstName", "a.url"];
    assert ["u.firstName", "a.url"][1..] == ["a.url"];
    assert "u.firstName" + ", " + "a.url" == "u.firstName, a.url";
  }

  lemma FindUsersAvatarsHead()
    ensures "SELECT " + "u.firstName, a.url" + " FROM " == "SELECT u.firstName, a.url FROM "
  {
    assert "SELECT " + "u.firstName, a.url" == "SELECT u.firstName, a.url";
  }

  lemma FindUsersAvatarsTail()
    ensures "SELECT u.firstName, a.url FROM " + "User AS u" + " WHERE " + "a.userId = u.id"
         == "SELECT u.firstName, a.url FROM User AS u WHERE a.userId = u.id"
  {
    assert "SELECT u.firstName, a.url FROM " + "User AS u" == "SELECT u.firstName, a.url FROM User AS u";
    assert "SELECT u.firstName, a.url FROM User AS u" + " WHERE " == "SELECT u.firstName, a.url FROM User AS u WHERE ";
  }

  lemma FindUsersAvatarsText()
    ensures "SELECT " + "u.firstName, a.url" + " FROM " + "User AS u" + " WHERE " + "a.userId = u.id"
         == "SELECT u.firstName, a.url FROM User AS u WHERE a.userId = u.id"
  {
    FindUsersAvatarsHead();
    FindUsersAvatarsTail();
  }

  lemma FindUsersAvatarsSql(users: TableExpr, id: ColumnExpr, firstName: ColumnExpr, url: ColumnExpr, userId: ColumnExpr)
    requires users.shape.Declared? && users.shape.table.GetName() == "User" && users.alias == "u"
    requires Refers(id, "u", "id") && Refers(firstName, "u", "firstName")
    requires Refers(url, "a", "url") && Refers(userId, "a", "userId")
    ensures SelectSql(users, [ColumnRef(firstName), ColumnRef(url)], [Columns.Eq(userId, Node(ColumnRef(id)))])
         == Some("SELECT u.firstName, a.url FROM User AS u WHERE a.userId = u.id")
  {
    UsersFrom(users);
    FindUsersAvatarsProjections(firstName, url);
    JoinCondition(userId, id);
    SelectText(users, [ColumnRef(firstName), ColumnRef(url)], [Columns.Eq(userId, Node(ColumnRef(id)))],
      "User AS u", "u.firstName, a.url", "a.userId = u.id");
    FindUsersAvatarsText();
  }

  lemma FindUsersAvatarsRendered(q: SelectQuery)
    requires q.Valid() && |q.tables| == 2
    requires Shape(q.tables[0], "User", "u", UserFields) && Shape(q.tables[1], "Avatar", "a", AvatarFields)
    requires Named(q.tables[0], "id") && Named(q.tables[0], "firstName")
    requires Named(q.tables[1], "url") && Named(q.tables[1], "userId")
    requires "id" in q.views[0] && "firstName" in q.views[0] && "url" in q.views[1] && "userId" in q.views[1]
    requires q.selects == UsersAvatarsSelection(q.views) && q.wheres == [AvatarOwner(q.views)]
    ensures SelectSql(q.tables[0], q.selects, q.wheres) == Some("SELECT u.firstName, a.url FROM User AS u WHERE a.userId = u.id")
  {
    var tq1, tq2 := q.views[0], q.views[1];
    ViewRefers(tq1, q.tables[0], "u", "id");
    ViewRefers(tq1, q.tables[0], "u", "firstName");
    ViewRefers(tq2, q.tables[1], "a", "url");
    ViewRefers(tq2, q.tables[1], "a", "userId");
    FindUsersAvatarsSql(q.tables[0], tq1["id"], tq1["firstName"], tq2["url"], tq2["userId"]);
  }

  /** `Query.find(u, a).select(...).where(...)` of `q2`, over the two fixtures. */
  method UsersAvatarsQuery(users: TableExpr, avatars: TableExpr) returns (q: SelectQuery)
    requires "id" in users.shape.Columns() && "firstName" in users.shape.Columns()
    requires "url" in avatars.shape.Columns() && "userId" in avatars.shape.Columns()
    ensures fresh(q) && q.Valid() && q.tables == [users, avatars]
    ensures "id" in q.views[0] && "firstName" in q.views[0] && "url" in q.views[1] && "userId" in q.views[1]
    ensures q.selects == UsersAvatarsSelection(q.views) && q.wheres == [AvatarOwner(q.views)]
  {
    q := SelectQuery.Find([users, avatars]);
    q := q.Select(UsersAvatarsSelection);
    q := q.Where(AvatarOwner);
  }

  /**
   * `q2`: two tables joined by a column comparison. Only the first table is
   * named after FROM.
   */
  method FindUsersAvatars() returns (q: SelectQuery, sql: Option<string>)
    ensures sql == Some("SELECT u.firstName, a.url FROM User AS u WHERE a.userId = u.id")
    ensures q.Valid() && |q.tables| == 2
    ensures Shape(q.tables[0], "User", "u", UserFields) && Shape(q.tables[1], "Avatar", "a", AvatarFields)
    ensures Named(q.tables[0], "id")
    ensures q.tables[0].shape.Columns()["id"] != q.tables[1].shape.Columns()["id"]
    ensures OnlyColumns(q.tables[0]) && OnlyColumns(q.tables[1])
  {
    var users, avatars, _ := Fixtures();
    FixtureNamed(users, "User", "u", UserFields, "id");
    FixtureNamed(users, "User", "u", UserFields, "firstName");
    FixtureNamed(avatars, "Avatar", "a", AvatarFields, "url");
    FixtureNamed(avatars, "Avatar", "a", AvatarFields, "userId");
    q := UsersAvatarsQuery(users, avatars);
    sql := q.ToSql();
    FindUsersAvatarsRendered(q);
  }

  lemma ThreeProjections(x: ColumnExpr, y: ColumnExpr, z: ColumnExpr, text: string)
    requires text == ColumnExprSql(x) + ", " + ColumnExprSql(y) + ", " + ColumnExprSql(z)
    ensures Join(ExprSqls([ColumnRef(x), ColumnRef(y), ColumnRef(z)]), ", ") == text
  {
    assert ExprSqls([ColumnRef(x), ColumnRef(y), ColumnRef(z)]) == [ColumnExprSql(x), ColumnExprSql(y), ColumnExprSql(z)];
    Join3(ColumnExprSql(x), ColumnExprSql(y), ColumnExprSql(z), ", ");
  }

  lemma FourProjections(w: ColumnExpr, x: ColumnExpr, y: ColumnExpr, z: ColumnExpr, text: string)
    requires text == ColumnExprSql(w) + ", " + ColumnExprSql(x) + ", " + ColumnExprSql(y) + ", " + ColumnExprSql(z)
    ensures Join(ExprSqls([ColumnRef(w), ColumnRef(x), ColumnRef(y), ColumnRef(z)]), ", ") == text
  {
    assert ExprSqls([ColumnRef(w), ColumnRef(x), ColumnRef(y), ColumnRef(z)])
        == [ColumnExprSql(w), ColumnExprSql(x), ColumnExprSql(y), ColumnExprSql(z)];
    Join4(ColumnExprSql(w), ColumnExprSql(x), ColumnExprSql(y), ColumnExprSql(z), ", ");
  }

  lemma FindAllProjections(firstName: ColumnExpr, url: ColumnExpr, name: ColumnExpr, slug: ColumnExpr)
    requires Refers(firstName, "u", "firstName") && Refers(url, "a", "url")
    requires Refers(name, "c", "name") && Refers(slug, "c", "slug")
    ensures Join(ExprSqls([ColumnRef(firstName), ColumnRef(url), ColumnRef(name), ColumnRef(slug)]), ", ")
         == "u.firstName, a.url, c.name, c.slug"
  {
    assert ColumnExprSql(firstName) == "u.firstName" && ColumnExprSql(url) == "a.url";
    assert ColumnExprSql(name) == "c.name" && ColumnExprSql(slug) == "c.slug";
    var text := "u.firstName" + ", " + "a.url";
    assert text == "u.firstName, a.url";
    text := text + ", " + "c.name";
    assert text == "u.firstName, a.url, c.name";
    text := text + ", " + "c.slug";
    assert text == "u.firstName, a.url, c.name, c.slug";
    FourProjections(firstName, url, name, slug, text);
  }

  lemma FindAllSelect()
    ensures "SELECT " + "u.firstName, a.url, c.name, c.slug" == "SELECT u.firstName, a.url, c.name, c.slug"
  {
  }

  lemma FindAllFrom()
    ensures "SELECT u.firstName, a.url, c.name, c.slug" + " FROM " + "User AS u"
         == "SELECT u.firstName, a.url, c.name, c.slug FROM User AS u"
  {
    assert "SELECT u.firstName, a.url, c.name, c.slug" + " FROM " == "SELECT u.firstName, a.url, c.name, c.slug FROM ";
  }

  lemma FindAllWhere()
    ensures "SELECT u.firstName, a.url, c.name, c.slug FROM User AS u" + " WHERE " + "a.userId = u.id"
         == "SELECT u.firstName, a.url, c.name, c.slug FROM User AS u WHERE a.userId = u.id"
  {
    assert "SELECT u.firstName, a.url, c.name, c.slug FROM User AS u" + " WHERE "
        == "SELECT u.firstName, a.url, c.name, c.slug FROM User AS u WHERE ";
  }

  lemma FindAllText()
    ensures "SELECT " + "u.firstName, a.url, c.name, c.slug" + " FROM " + "User AS u" + " WHERE " + "a.userId = u.id"
         == "SELECT u.firstName, a.url, c.name, c.slug FROM User AS u WHERE a.userId = u.id"
  {
    FindAllSelect();
    FindAllFrom();
    FindAllWhere();
  }

  lemma FindAllSql(users: TableExpr, id: ColumnExpr, firstName: ColumnExpr, url: ColumnExpr, userId: ColumnExpr,
                   name: ColumnExpr, slug: ColumnExpr)
    requires users.shape.Declared? && users.shape.table.GetName() == "User" && users.alias == "u"
    requires Refers(id, "u", "id") && Refers(firstName, "u", "firstName")
    requires Refers(url, "a", "url") && Refers(userId, "a", "userId")
    requires Refers(name, "c", "name") && Refers(slug, "c", "slug")
    ensures SelectSql(users, [ColumnRef(firstName), ColumnRef(url), ColumnRef(name), ColumnRef(slug)],
                      [Columns.Eq(userId, Node(ColumnRef(id)))])
         == Some("SELECT u.firstName, a.url, c.name, c.slug FROM User AS u WHERE a.userId = u.id")
  {
    UsersFrom(users);
    FindAllProjections(firstName, url, name, slug);
    JoinCondition(userId, id);
    SelectText(users, [ColumnRef(firstName), ColumnRef(url), ColumnRef(name), ColumnRef(slug)],
      [Columns.Eq(userId, Node(ColumnRef(id)))], "User AS u", "u.firstName, a.url, c.name, c.slug", "a.userId = u.id");
    FindAllText();
  }

  lemma FindAllRendered(q: SelectQuery)
    requires q.Valid() && |q.tables| == 3
    requires Shape(q.tables[0], "User", "u", UserFields) && Shape(q.tables[1], "Avatar", "a", AvatarFields)
    requires Shape(q.tables[2], "Content", "c", ContentFields)
    requires Named(q.tables[0], "id") && Named(q.tables[0], "firstName")
    requires Named(q.tables[1], "url") && Named(q.tables[1], "userId")
    requires Named(q.tables[2], "name") && Named(q.tables[2], "slug")
    requires "id" in q.views[0] && "firstName" in q.views[0] && "url" in q.views[1] && "userId" in q.views[1]
    requires "name" in q.views[2] && "slug" in q.views[2]
    requires q.selects == AllSelection(q.views) && q.wheres == [AvatarOwner(q.views)]
    ensures SelectSql(q.tables[0], q.selects, q.wheres)
         == Some("SELECT u.firstName, a.url, c.name, c.slug FROM User AS u WHERE a.userId = u.id")
  {
    var tq1, tq2, tq3 := q.views[0], q.views[1], q.views[2];
    ViewRefers(tq1, q.tables[0], "u", "id");
    ViewRefers(tq1, q.tables[0], "u", "firstName");
    ViewRefers(tq2, q.tables[1], "a", "url");
    ViewRefers(tq2, q.tables[1], "a", "userId");
    ViewRefers(tq3, q.tables[2], "c", "name");
    ViewRefers(tq3, q.tables[2], "c", "slug");
    FindAllSql(q.tables[0], tq1["id"], tq1["firstName"], tq2["url"], tq2["userId"], tq3["name"], tq3["slug"]);
  }

  /** `Query.find(u, a, c).select(...).where(...)` of `q3`, over the three fixtures. */
  method AllQuery(users: TableExpr, avatars: TableExpr, contents: TableExpr) returns (q: SelectQuery)
    requires "id" in users.shape.Columns() && "firstName" in users.shape.Columns()
    requires "url" in avatars.shape.Columns() && "userId" in avatars.shape.Columns()
    requires "name" in contents.shape.Columns() && "slug" in contents.shape.Columns()
    ensures fresh(q) && q.Valid() && q.tables == [users, avatars, contents]
    ensures "id" in q.views[0] && "firstName" in q.views[0] && "url" in q.views[1] && "userId" in q.views[1]
    ensures "name" in q.views[2] && "slug" in q.views[2]
    ensures q.selects == AllSelection(q.views) && q.wheres == [AvatarOwner(q.views)]
  {
    q := SelectQuery.Find([users, avatars, contents]);
    q := q.Select(AllSelection);
    q := q.Where(AvatarOwner);
  }

  /** `q3`: three tables; the third contributes projections but, like the second, is not named after FROM. */
  method FindAll() returns (sql: Option<string>)
    ensures sql == Some("SELECT u.firstName, a.url, c.name, c.slug FROM User AS u WHERE a.userId = u.id")
  {
    var users, avatars, contents := Fixtures();
    FixtureNamed(users, "User", "u", UserFields, "id");
    FixtureNamed(users, "User", "u", UserFields, "firstName");
    FixtureNamed(avatars, "Avatar", "a", AvatarFields, "url");
    FixtureNamed(avatars, "Avatar", "a", AvatarFields, "userId");
    FixtureNamed(contents, "Content", "c", ContentFields, "name");
    FixtureNamed(contents, "Content", "c", ContentFields, "slug");
    var q := AllQuery(users, avatars, contents);
    sql := q.ToSql();
    FindAllRendered(q);
  }

  /** No field identifier of `User` or `Avatar` starts with `_`, so the subquery keeps them all. */
  lemma SubqueryKeys()
    ensures Public(set k | k in UserFields) + Public(set k | k in AvatarFields) == {"id", "firstName", "order", "url", "userId"}
  {
    assert !Reserved("id") && !Reserved("firstName") && !Reserved("order") && !Reserved("url") && !Reserved("userId");
    assert forall k :: k in UserFields <==> k == "id" || k == "firstName" || k == "order";
    assert forall k :: k in AvatarFields <==> k == "id" || k == "url" || k == "userId";
  }

  /**
   * What `toSubquery` makes of `q2`'s tables: every field of both is a column,
   * so the merged object's columns are the five public identifiers, and its
   * `id` is the user's.
   */
  lemma SubqueryOfFixtures(users: TableExpr, avatars: TableExpr, sub: TableExpr)
    requires Shape(users, "User", "u", UserFields) && Shape(avatars, "Avatar", "a", AvatarFields)
    requires OnlyColumns(users) && OnlyColumns(avatars)
    requires sub.shape.Merged?
    requires sub.shape.Fields().Keys == Public(users.shape.Fields().Keys) + Public(avatars.shape.Fields().Keys)
    requires forall id :: id in sub.shape.Fields() ==>
      sub.shape.Fields()[id] == if id in users.shape.Fields() then users.shape.Fields()[id] else avatars.shape.Fields()[id]
    ensures sub.shape.Columns().Keys == {"id", "firstName", "order", "url", "userId"}
    ensures "id" in users.shape.Columns() && sub.shape.Columns()["id"] == users.shape.Columns()["id"]
  {
    var fields := sub.shape.Fields();
    assert fields.Keys == {"id", "firstName", "order", "url", "userId"} by {
      SubqueryKeys();
    }
    assert forall id :: id in fields ==> fields[id].ColumnField?;
    MergedColumns(sub.shape.order, sub.shape.fields);
    assert "id" in users.shape.Fields();
  }

  lemma SubqueryProjectionsText(id: ColumnExpr, name: ColumnExpr, slug: ColumnExpr)
    requires Refers(id, "b", "id") && Refers(name, "c", "name") && Refers(slug, "c", "slug")
    ensures Join(ExprSqls([ColumnRef(id), ColumnRef(name), ColumnRef(slug)]), ", ") == "b.id, c.name, c.slug"
  {
    assert ColumnExprSql(id) == "b.id" && ColumnExprSql(name) == "c.name" && ColumnExprSql(slug) == "c.slug";
    var text := "b.id" + ", " + "c.name";
    assert text == "b.id, c.name";
    text := text + ", " + "c.slug";
    assert text == "b.id, c.name, c.slug";
    ThreeProjections(id, name, slug, text);
  }

  /**
   * `Query.find(tq, c).select(...)` of `q4` over a subquery aliased `b` whose
   * `id` column is named `id`: the projections render through the new alias,
   * but the query does not, because the subquery has no table name.
   */
  method SubqueryQuery(sub: TableExpr) returns (sql: Option<string>, projections: string)
    requires sub.shape.Merged? && sub.alias == "b"
    requires "id" in sub.shape.Columns() && sub.shape.Columns()["id"].name == Some("id")
    ensures sql == None
    ensures projections == "b.id, c.name, c.slug"
  {
    var contents := Define("Content", "c", ContentFields);
    FixtureNamed(contents, "Content", "c", ContentFields, "name");
    FixtureNamed(contents, "Content", "c", ContentFields, "slug");
    var q := SelectQuery.Find([sub, contents]);
    var tq1, tq2 := q.views[0], q.views[1];
    assert Refers(tq1["id"], "b", "id");
    ViewRefers(tq2, contents, "c", "name");
    ViewRefers(tq2, contents, "c", "slug");
    q := q.Select(SubquerySelection);
    sql := q.ToSql();
    assert q.selects == [ColumnRef(tq1["id"]), ColumnRef(tq2["name"]), ColumnRef(tq2["slug"])];
    SubqueryProjectionsText(tq1["id"], tq2["name"], tq2["slug"]);
    projections := Join(ExprSqls(q.selects), ", ");
  }

  /**
   * `q4`: `q2` merged into a subquery aliased `b` and queried with `Content`.
   * The merged object keeps every public column of both tables, the user's
   * `id` over the avatar's.
   */
  method FindSubquery() returns (users: TableExpr, avatars: TableExpr, sub: TableExpr, sql: Option<string>, projections: string)
    ensures sub.shape.Merged? && sub.alias == "b"
    ensures sub.shape.Columns().Keys == {"id", "firstName", "order", "url", "userId"}
    ensures "id" in users.shape.Columns() && "id" in avatars.shape.Columns()
    ensures sub.shape.Columns()["id"] == users.shape.Columns()["id"] != avatars.shape.Columns()["id"]
    ensures sql == None
    ensures projections == "b.id, c.name, c.slug"
  {
    var q2, _ := FindUsersAvatars();
    users, avatars := q2.tables[0], q2.tables[1];
    sub := q2.ToSubquery("b");
    SubqueryOfFixtures(users, avatars, sub);
    assert users.shape.Columns()["id"].name == Some("id");
    sql, projections := SubqueryQuery(sub);
  }
}
