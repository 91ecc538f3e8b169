# ts-sql-experiment in Dafny

A model of the SQL-fragment builder in `lib/db` of ts-sql-experiment. It covers four pieces:

- **Tables.** A table class declares its columns as fields. `Table` resolves the table's name, and `register` stamps each column's `name` and its table back-reference. `as(alias)` wraps the table in a `TableExpression`, which renders as `<name> AS <alias>`.
- **Columns and predicates.** A `ColumnExpression` is a column seen through one TableExpression. It renders as `alias.name [AS out]`. Its comparison builders pair it with one operator, giving a `ColumnPredicate` that renders as `<column> <operation>`.
- **Operations.** There are the scalar comparisons, `LIKE`, `IN`/`NOT IN`, the null tests and SQL function calls. Each has three renderings:
  - the literal SQL (`toSql`);
  - the parameterised statement (`toStatement`);
  - the list of values to bind (`toArguments`).
- **The SELECT builder.** `Query.find` picks a 1-, 2- or 3-table builder. That builder keeps a column view per table and collects projections and predicates with `select` and `where`. `toSql` renders the query. The 2-table builder can also merge its tables into a subquery with `toSubquery`.

Modules:

- **Text.** The string functions all renderers share:
  - `Array.prototype.join`;
  - the decimal text of an integer;
  - the placeholder list `args.map(() => '?').join(',')`;
  - `Bind`, a reference definition of parameter binding. It replaces each `?` from left to right with the next value. The source itself has no binding step, so `Bind` is what connects `toStatement`/`toArguments` to `toSql`.
- **Schema.**
  - `Column` and `Table` are classes. A column's `name` and `table` are updated in place by registration.
  - `TableShape` says what a TableExpression wraps: a declared `Table`, or the plain object that `toSubquery` builds.
  - No JavaScript reflection is modelled. Instead, a table carries its field identifiers in declaration order (what `for ... in` visits), a field map, and its class name (`constructor.name`).
- **Expression.** The closed tree of renderable nodes, with their literal renderings. Matching on the variant replaces `isExpression` and virtual dispatch. A column reference renders its column's current `name`, so the renderings read the Column objects they mention.
- **Operations.** `toStatement`, `toArguments` and `Function.as`, with the lemmas relating the two render modes.
- **Columns.** The builders `eq` … `lte` and `isNull`.
- **Query.** `query(te)` (the column view), the `SelectQuery` class (`find`, `where`, `select`, `toSql`), and `toSubquery` with its key-merging loop.
- **Scenarios.** The demonstration in `lib/db/test.ts`: the tables `User`, `Avatar` and `Content`, and the queries `q1`–`q4`, each with the text it renders.

The three `SelectQuery1/2/3` classes are one class here. The arity is the number of tables, fixed at construction. A builder closure takes one column view per table, in position order, and is modelled as a function of the list of views.

## Model

| member | source | states |
|---|---|---|
| Text.Join | lib/db/query.ts:130 | `parts.join(sep)`: the parts in order, with `sep` between neighbours. `JoinAppend` and `JoinConcat` state how it grows. |
| Text.Placeholders | lib/db/operation.ts:31 | `args.map(() => '?').join(',')` for n arguments. `PlaceholdersShape` and `PlaceholderCount` state its shape and its marks. |
| Text.JoinAppend | lib/db/query.ts:122-130 | Joining one more part adds the separator and that part at the end. With no earlier parts, it adds only the part. |
| Text.JoinConcat | lib/db/query.ts:116 | Joining two non-empty lists end to end gives the two joins with one separator between them. |
| Text.PlaceholdersShape | lib/db/operation.ts:31 | The placeholder list for n arguments has 2n-1 characters, alternating `?` and `,`, and is empty for none. |
| Text.PlaceholderCount | lib/db/operation.ts:31 | The placeholder list for n arguments has exactly n question marks and n-1 commas. |
| Text.Bind | lib/db/operation.ts:6-8 | Reference definition of binding `toArguments` into `toStatement`. With no values, or a template without `?`, the template is unchanged. `BindPlaceholders`, `BindingReproducesSql` and `BindingFillsLists` relate it to the source's renderings. |
| Text.BindPlaceholders | lib/db/operation.ts:139-140 | Binding values into a placeholder list of their own length gives the values joined by `,`, in order. Any text and values after them are left for the rest of the binding. |
| Text.NatText | lib/db/operation.ts:83 | The `${n}` text of a natural number is non-empty, all decimal digits, and has no leading zero. |
| Text.NatTextValue | lib/db/operation.ts:83 | Reading that text back as decimal digits gives the number again, so the text is exact. |
| Text.IntTextValue | lib/db/operation.ts:83 | The text of an integer starts with `-` exactly when it is negative. The rest is the decimal text of its magnitude and reads back as that magnitude. |
| Text.LitText | lib/db/operation.ts:83 | The text of `${arg}` (and of `join`) for a literal: an integer by `IntText`, a string as it is. `IntTextValue` states that the integer case is exact. |
| Schema.Column.constructor | lib/db/column.ts:28-33 | `name`, `defaultValue` and `comment` are copied from the options. `nullable` is true only when the option is set to true; it is false when the option is false or undefined. `table` starts unset. |
| Schema.NewColumn | lib/db/column.ts:28-33 | `new Column()` with no options: unnamed, no table, no default value, no comment, and not nullable. |
| Schema.Table.constructor | lib/db/table.ts:32-37 | Omitted options become `{}`. The class name, the field order and the fields are kept. Registration is not performed. |
| Schema.Table.GetName | lib/db/table.ts:36-41 | The name is `options.name` when that is given and non-empty, and the defining class's name otherwise. |
| Schema.Table.LastHolder | lib/db/table.ts:43-50 | The field identifier that registration leaves on a column. It is a field that holds that column, and no later field holds it. It is none exactly when no field holds the column. |
| Schema.Table.RegisterColumn | lib/db/table.ts:52-55 | Sets the column's `name` to the given identifier and its `table` to this table. It changes no other object or field. |
| Schema.Table.Register | lib/db/table.ts:43-50 | Every Column-valued field ends up named after its identifier (the last one, for a column held twice) and points back to this table. Only the table's columns may change. |
| Schema.TableShape.FieldKeys | lib/db/query.ts:149-161 | The identifiers a `for ... in` visits in `toSubquery` are exactly the fields of the wrapped object, columns or not. |
| Schema.TableShape.Keys | lib/db/query.ts:15 | The identifiers a `for ... in` visits are exactly the column identifiers of the wrapped object. |
| Schema.NewTableExpr | lib/db/table.ts:66-70 | Wraps the given object. The alias is the given one when non-empty, and the wrapped object's class name otherwise (`Object` for a subquery). |
| Schema.As | lib/db/table.ts:19-21 | A TableExpression over this very table object, with the alias fallback above. It renders as `<getName()> AS <alias>`. |
| Schema.TableSql | lib/db/table.ts:72-74 | A TableExpression renders exactly when it wraps a declared table. The plain object from `toSubquery` has no `getName()`, so rendering it fails. |
| Expression.ColumnExprSql | lib/db/column.ts:79-85 | `ColumnExpression.toSql`. `Expression.OutputAlias` states both of its branches. |
| Expression.OutputAlias | lib/db/column.ts:79-85 | The text always starts with `<alias>.<column name>`, and it is exactly that when the output alias is unset or empty. Otherwise it goes on with ` AS <output alias>`. |
| Expression.FunctionSql | lib/db/operation.ts:26-28 | `Function.toSql`: the name, then the argument texts joined by `, ` in parentheses. `BindingFillsLists` relates it to the statement. |
| Expression.ExprSql | lib/db/operation.ts:50-52 | `toSql` of each projectable node. A function projection renders as `fn.toSql() AS alias` (stated by `Operations.As`). |
| Expression.OperationSql | lib/db/operation.ts:81-183 | The literal `toSql` of every operation. A scalar operand renders inline, as its own `toSql` for an Expression and as its text for a value. `BindingReproducesSql` and `BindingFillsLists` relate it to `Statement` and `Arguments`. |
| Expression.PredicateSql | lib/db/column.ts:98-100 | `<column> <operation>`. `PredicateBindsStatement` relates it to the statement. |
| Operations.Statement | lib/db/operation.ts:81-183 | `toStatement` of every operation: one `?` per bound argument. `PlaceholdersMatchArguments` and `MembershipStatement` state this. |
| Operations.Arguments | lib/db/operation.ts:7-78 | `toArguments`: a scalar operator's one operand, the array operator's or function's arguments, and nothing for a null test. `PlaceholdersMatchArguments` pairs it with `Statement`. |
| Operations.As | lib/db/operation.ts:22-24 | `fn.as(a)` renders as the function's `toSql`, then ` AS `, then the alias, and reads no column. |
| Operations.PlaceholdersMatchArguments | lib/db/operation.ts:7-183 | For every operation, the statement's `?` count equals the length of its argument list. A function's own name can add marks of its own. |
| Operations.BindingReproducesSql | lib/db/operation.ts:81-133 | For scalar operators and null tests, binding the argument texts into the statement's placeholders in order gives exactly the literal `toSql`. |
| Operations.BindingFillsLists | lib/db/operation.ts:135-151 | For `IN`, `NOT IN` and function calls, binding gives the argument texts, in order, joined by `,` inside the parentheses. The literal `toSql` joins the same texts by `, `. |
| Operations.MembershipStatement | lib/db/operation.ts:139-150 | An `IN`/`NOT IN` statement holds exactly N `?` separated by `,`. With no arguments it is `IN()` / `NOT IN()`. Its `?` count equals its argument count. |
| Columns.Eq | lib/db/column.ts:51-53 | A predicate over this very column expression. Its statement is `= ?` and its one argument is the operand, unchanged. |
| Columns.Ne | lib/db/column.ts:55-57 | The same as `Eq`, with `!= ?`. |
| Columns.Gt | lib/db/column.ts:59-61 | The same as `Eq`, with `> ?`. |
| Columns.Gte | lib/db/column.ts:63-65 | The same as `Eq`, with `>= ?`. |
| Columns.Lt | lib/db/column.ts:67-69 | The same as `Eq`, with `< ?`. |
| Columns.Lte | lib/db/column.ts:71-73 | The same as `Eq`, with `<= ?`. |
| Columns.IsNullTest | lib/db/column.ts:75-77 | A predicate over this column expression whose statement is `IS NULL`. It binds nothing, and its literal text equals its statement. |
| Columns.PredicateBindsStatement | lib/db/column.ts:98-100 | A comparison or null-test predicate renders as: the column, a space, then its statement with its arguments bound in order. |
| Columns.ColumnComparison | lib/db/column.ts:51-53 | `x.eq(y)` between two columns renders as `x = y`, both qualified by their aliases. Its bound statement is `= y`. |
| Query.BuildView | lib/db/query.ts:12-19 | Exactly one entry per column identifier of the table. Each entry references the column under that identifier, through this TableExpression, with no output alias. |
| Query.ViewEntrySql | lib/db/query.ts:12-19 | Every view entry renders as `<alias>.<column name>`. |
| Query.SelectQuery.constructor | lib/db/query.ts:55-58 | One column view per table, in order. Nothing is selected or filtered yet. |
| Query.SelectQuery.Find | lib/db/query.ts:41-48 | Three tables give a 3-table query and two give a 2-table query. Any other count gives a 1-table query over the first table only. |
| Query.SelectQuery.Where | lib/db/query.ts:60-63 | The closure's predicate goes at the end of `_where`; earlier predicates and `_select` are unchanged. The same query object is returned. |
| Query.SelectQuery.Select | lib/db/query.ts:115-118 | The closure's list is appended to `_select` in order; earlier entries and `_where` are unchanged. The same query object is returned. |
| Query.SelectQuery.ToSql | lib/db/query.ts:121-131 | The text is `SELECT <projections joined by ", "> FROM <t1>`, plus ` WHERE <predicates joined by " AND ">` exactly when there are predicates. Only `t1` is rendered. The result exists exactly when `t1` wraps a declared table. The builder state is unchanged. |
| Query.SelectSql | lib/db/query.ts:121-131 | The text of a query. It exists exactly when the first table wraps a declared table. `SelectQuery.ToSql` renders by it, and `WhereExtendsSql` and `SelectExtendsList` state how it grows. |
| Query.WhereClauseAppend | lib/db/query.ts:126-129 | A further predicate adds ` WHERE <p>` to an empty WHERE clause, and ` AND <p>` otherwise. |
| Query.WhereExtendsSql | lib/db/query.ts:60-63 | After `where`, the rendered query is the earlier text, then ` WHERE ` (first predicate) or ` AND ` (later ones), then the new predicate. |
| Query.SelectExtendsList | lib/db/query.ts:115-118 | After `select`, the projection list is the earlier list, then `, `, then the new projections in order. |
| Query.PartsSqlHead | lib/db/query.ts:122-125 | The four parts `SELECT`, projections, `FROM`, source, joined by spaces, give `SELECT <projections> FROM <source>`. An empty projection list gives `SELECT  FROM …`. |
| Query.PartsSqlWhere | lib/db/query.ts:126-130 | Pushing `WHERE` and the conditions adds ` WHERE <conditions>` to the joined text. |
| Query.CopyPublic | lib/db/query.ts:149-162 | One loop of `toSubquery`. It adds each field whose identifier does not start with `_`, whether or not the field is a column. The first loop overwrites; the second keeps an identifier already present (`hasOwnProperty`). |
| Query.SelectQuery.ToSubquery | lib/db/query.ts:147-164 | The merged object's fields are the union of both tables' fields whose identifiers do not start with `_`, columns and other values alike. An identifier of `t1` keeps `t1`'s value; one only in `t2` takes `t2`'s value. The result is a subquery wrapped with the given alias, or `Object` if the alias is empty. |
| Query.MergedFields | lib/db/query.ts:163 | The plain object built from an identifier order and a field map that agree has exactly that map as its fields. |
| Query.MergedColumns | lib/db/query.ts:12-19 | The columns of a plain object are exactly its Column-valued fields, each under its own identifier. |
| Scenarios.Define | lib/db/test.ts:22-41 | `new <Class>().as(alias)` for a class whose fields are columns named after their identifiers. |
| Scenarios.Fixtures | lib/db/test.ts:41-43 | Creates `User AS u`, `Avatar AS a` and `Content AS c`. Each has fresh columns, so the user's `id` column is not the avatar's. |
| Scenarios.FixtureNamed | lib/db/test.ts:22-39 | Every field of a demonstration table is a column named after its identifier. |
| Scenarios.ViewRefers | lib/db/query.ts:12-19 | A named column, seen through a view of its table, is referenced as `<alias>.<identifier>` with no output alias. |
| Scenarios.NowProjection | lib/db/test.ts:45 | `NOW.as('now')` renders as `NOW() AS now`. |
| Scenarios.UsersFrom | lib/db/test.ts:41 | `Users` renders as `User AS u`. |
| Scenarios.FindUsersProjections | lib/db/test.ts:50 | `[u.id, u.firstName, NOW.as('now')]` renders as `u.id, u.firstName, NOW() AS now`. |
| Scenarios.FindUsersConditions | lib/db/test.ts:51 | `u.id.gt(4)` renders as `u.id > 4`. |
| Scenarios.FindUsersRendered | lib/db/test.ts:48-51 | The state that `q1`'s builder calls leave renders as `SELECT u.id, u.firstName, NOW() AS now FROM User AS u WHERE u.id > 4`. |
| Scenarios.UsersQuery | lib/db/test.ts:48-51 | `Query.find(Users).select(...).where(...)` leaves the projections and the predicate of `q1`. |
| Scenarios.FindUsers | lib/db/test.ts:48-52 | `q1.toSql()` is `SELECT u.id, u.firstName, NOW() AS now FROM User AS u WHERE u.id > 4`. |
| Scenarios.JoinCondition | lib/db/test.ts:57 | `a.userId.eq(u.id)` renders as `a.userId = u.id`. |
| Scenarios.FindUsersAvatarsRendered | lib/db/test.ts:54-57 | The state that `q2`'s builder calls leave renders as `SELECT u.firstName, a.url FROM User AS u WHERE a.userId = u.id`. |
| Scenarios.UsersAvatarsQuery | lib/db/test.ts:54-57 | `Query.find(Users, Avatars).select(...).where(...)` leaves the projections and the predicate of `q2`. |
| Scenarios.FindUsersAvatars | lib/db/test.ts:54-58 | `q2.toSql()` is `SELECT u.firstName, a.url FROM User AS u WHERE a.userId = u.id`. `Avatars` is not named after FROM. |
| Scenarios.FindAllRendered | lib/db/test.ts:60-63 | The state that `q3`'s builder calls leave renders as `SELECT u.firstName, a.url, c.name, c.slug FROM User AS u WHERE a.userId = u.id`. |
| Scenarios.AllQuery | lib/db/test.ts:60-63 | `Query.find(Users, Avatars, Contents).select(...).where(...)` leaves the projections and the predicate of `q3`. |
| Scenarios.FindAll | lib/db/test.ts:60-64 | `q3.toSql()` is `SELECT u.firstName, a.url, c.name, c.slug FROM User AS u WHERE a.userId = u.id`. Only `Users` is named after FROM. |
| Scenarios.SubqueryKeys | lib/db/test.ts:66 | No field of `User` or `Avatar` starts with `_`, so the subquery's keys are `id`, `firstName`, `order`, `url` and `userId`. |
| Scenarios.SubqueryOfFixtures | lib/db/test.ts:66 | Every field of `User` and `Avatar` is a column, so the merged object's columns are `id`, `firstName`, `order`, `url` and `userId`, and its `id` is the user's column. |
| Scenarios.SubqueryProjectionsText | lib/db/test.ts:66 | `[s.id, c.name, c.slug]` renders as `b.id, c.name, c.slug`. |
| Scenarios.SubqueryQuery | lib/db/test.ts:66-67 | Over a subquery aliased `b`, `q4`'s projections render as `b.id, c.name, c.slug`. `q4.toSql()` fails. |
| Scenarios.FindSubquery | lib/db/test.ts:66-67 | `q2.toSubquery('b')` keeps exactly the five public keys, and the user's `id` column wins over the avatar's. `q4`'s projections render through the alias `b`, and `q4.toSql()` fails. |

## Left out

- `lib/db/driver.ts`: an abstract escape/quote interface that the core never calls.
- `lib/db/test.ts`: its `console.log` output and its unused `escape` helper. The four queries are modelled; the printing is not.
- `lib/db/predicate.ts` is not part of this model. `Predicate` has only the `ColumnPredicate` variant.
- JavaScript reflection:
  - `for ... in`, `constructor.name` and `instanceof` are replaced by an explicit field order, a field map and a class-name string;
  - `query()` also visits non-column fields such as `_name` and `_options`. The model builds views over the columns only. This holds for the object `toSubquery` builds too: it may carry public non-column fields, and `query()` over it gives them no entry.
- TypeScript mapped and generic types (`TableQuery`, the column's `base` type): they exist only at compile time. The `String` and `Number` column subclasses add nothing at run time and are plain `Column`s here.
- Literal-to-text coercion:
  - literal operands are integers and strings;
  - the model prints an integer as JavaScript prints a safe integer (magnitude at most 2^53 - 1);
  - floating-point numbers and other `any` values are not modelled.
- The arguments of `Function` and `In`/`NotIn` are literals only. The source joins them as plain text, which would print `[object Object]` for an Expression.
- A TableExpression used as a projection or operand is not a node of the expression tree, because nothing in the core renders one there.
- `_limit`, `_offset`, `QueryOptions` and `SelectQueryOptions`: they are never set or rendered.
- `ColumnExpression.alias` is mutable in the source but never reassigned; the model keeps it fixed in the node.
- Query.SelectQuery.ToSubquery: states the key set and the column under each key, but not the order of the merged object's keys. The order is kept in the model but not stated.
- Text.IntText: prints every integer exactly in decimal. JavaScript numbers hold integers exactly only up to 2^53 - 1 in magnitude. A larger literal is rounded to a double first, and from 10^21 its text is in exponent form (`1e+21`). Neither is modelled.
- Query.SelectQuery.ToSql: the TypeError that rendering a subquery throws is modelled as `None`, not as an exception.
- Scenarios.FindSubquery: `q2` here is built from its own fixtures, not from `Users` and `Avatars` shared with `q1`. Sharing would change nothing, because rendering never modifies a table.
