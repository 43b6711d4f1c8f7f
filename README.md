# Client management over PostgreSQL: a Dafny model

`client_management.py` manages a small contact book of clients and their
phone numbers. Each of its functions opens a cursor on a psycopg2 connection,
sends one or more SQL statements, and, when it changes data, commits once at
the end. All statements but `create_db`'s two CREATE TABLE texts are
parameterised: a text with `%s` markers, plus a tuple of values.

This project models what those functions send over the connection:

- `sql.dfy` (module `Sql`) holds statements and values, Python truthiness of
  optional string arguments, the count of `%s` markers in a text,
  `str.join`, and the shape every mutating function sends: well-formed
  statements followed by exactly one commit.
- `client_management.dfy` (module `ClientManagement`) holds a `Connection`
  class whose `log` records the statements and commits sent over it, plus one
  method per function of the source. Each method appends to the log exactly
  what a pure function of its arguments describes. Lemmas about those
  functions state what the source promises:
  - `find_client` builds a lookup whose conditions and parameters follow the
    truthy arguments, in argument order.
  - `change_client` updates only the columns whose argument is truthy.
  - `add_client` inserts the client and then one row per phone, in list
    order.
  - Every mutating function ends with exactly one commit, and every statement
    has one placeholder per parameter.

As written, `client_management.py` does not parse: two literals in
`create_db` close with two quote characters instead of three (see the
Findings below), so none of its functions can run as the file stands. The
whole model is of the file with those two literals closed as evidently
intended.

The database itself is not modelled. The id that `INSERT ... RETURNING id`
reads back is an argument of `AddClient`. Optional arguments are
`Option<string>`, and both `None` and `""` are falsy, as in Python.

## Model

| member | source | states |
|---|---|---|
| `Sql.Truthy` | client_management.py:49-53 | Python's `if x:` on an optional string argument: false exactly for `None` and `""` (also lines 75-84; the `if phones:` of line 32 tests an optional list and is modelled in `AddClient` by `phones.Some? && phones.value != []`) |
| `Sql.Placeholders` | client_management.py:50 | the number of `%s` markers psycopg2 binds parameters to, scanned left to right; zero in a text without `%`, at most half the text's length |
| `Sql.Join` | client_management.py:89 | Python's `sep.join(parts)`; the result starts with the first part |
| `ClientManagement.TruthyCount` | client_management.py:49-54 | the number of truthy arguments, at most the number of arguments |
| `ClientManagement.Select` | client_management.py:75-86 | the (column, value) pairs of the truthy arguments, in the order the `if`s test them; one per truthy argument |
| `ClientManagement.FindFilters` | client_management.py:75-86 | find_client's filters: one per truthy argument (at most four), each on one of the four columns `c.first_name`, `c.last_name`, `c.email`, `p.phone` |
| `ClientManagement.Condition` | client_management.py:76 | the condition `<column> = %s` of one filter; it holds one placeholder when the column holds no `%` |
| `ClientManagement.Conditions` | client_management.py:76-85 | the `conditions` list: one condition per filter, in filter order, each with one placeholder |
| `ClientManagement.FindParams` | client_management.py:77-86 | the `params` list: one value per filter, in filter order, the argument's text unchanged |
| `ClientManagement.FindQuery` | client_management.py:71-89 | the lookup text: the base SELECT of line 71 (`SelectBase`), then ` WHERE ` and the conditions joined by ` AND ` when there are any; it always starts with the base, and equals it exactly when there is no filter |
| `ClientManagement.UpdateSql` | client_management.py:50-54 | the text `UPDATE clients SET <column> = %s WHERE id = %s;`, 39 characters longer than the column name |
| `ClientManagement.Updates` | client_management.py:49-54 | one UPDATE per selected column, each with two parameters whose second is the client id |
| `ClientManagement.ChangeClientActions` | client_management.py:49-55 | what change_client sends: one statement per truthy argument (at most three), then a commit, last |
| `ClientManagement.PhoneInserts` | client_management.py:33-36 | the phone INSERTs of the loop (each a `PhoneInsert`, lines 34-36), one per phone, in list order |
| `ClientManagement.AddClientActions` | client_management.py:27-37 | what add_client sends: first the client INSERT (`InsertClientSql`, lines 27-30) with the three names, then the phone INSERTs, then a commit, last; 2 + number-of-phones actions |
| `ClientManagement.CreateDbActions` | client_management.py:6-23 | what create_db sends: the two CREATE TABLE texts (`CreateClientsSql`, `CreatePhonesSql`), without placeholders or parameters, then exactly one commit |
| `ClientManagement.AddPhoneActions` | client_management.py:42-45 | what add_phone sends: the phone INSERT (`InsertPhoneSql`) with two placeholders for (client id, phone), then exactly one commit |
| `ClientManagement.DeletePhoneActions` | client_management.py:59-62 | what delete_phone sends: the DELETE (`DeletePhoneSql`) with two placeholders for (client id, phone), then exactly one commit |
| `ClientManagement.DeleteClientActions` | client_management.py:66-67 | what delete_client sends: the DELETE (`DeleteClientSql`) with one placeholder for the client id, then exactly one commit |
| `ClientManagement.CreateDbLiteralAsWritten` | client_management.py:6-15 | as written, the first literal of create_db extends the clients table's DDL and swallows the following `cur.execute(` |
| `ClientManagement.Connection.Execute` | client_management.py:27-30 | executing a statement appends it, with its parameters, to the connection's log; nothing else changes |
| `ClientManagement.Connection.Commit` | client_management.py:23 | committing appends one commit to the log |
| `ClientManagement.BuildFind` | client_management.py:69-89 | the step-by-step builder returns the text and parameters of the filters chosen by the truthy arguments; the text holds one placeholder per parameter, starts with the unchanged base SELECT, and holds ` WHERE ` exactly when some argument is truthy |
| `ClientManagement.FindClient` | client_management.py:69-91 | find_client sends exactly one statement, the lookup of its filters, and does not commit |
| `ClientManagement.FindProperties` | client_management.py:71-89 | for all arguments: placeholders equal parameters; the base text is a prefix; WHERE appears iff some argument is truthy; with no truthy argument the query is the bare base and the parameters are empty |
| `ClientManagement.FindPlaceholders` | client_management.py:76-89 | any lookup over the four filter columns has exactly one `%s` per parameter |
| `ClientManagement.FindWhere` | client_management.py:71-89 | the query contains ` WHERE ` iff there is a filter; the base text is always its prefix; no filter gives the base text and no parameters |
| `ClientManagement.FindOrder` | client_management.py:75-86 | a truthy argument contributes the condition on its own column and its value unchanged, at the position given by the number of truthy arguments before it (first name, last name, email, phone) |
| `ClientManagement.FindParamOrigin` | client_management.py:75-86 | every parameter is the unchanged value of one truthy argument, at that argument's rank among the truthy ones |
| `ClientManagement.SelectIgnoresFalsy` | client_management.py:75-86 | a falsy argument adds neither a condition nor a parameter: dropping it from the arguments selects the same filters, and `None` and `""` are interchangeable |
| `ClientManagement.SelectAt` | client_management.py:49-54 | a truthy argument yields its column and value at the position counted by the truthy arguments before it |
| `ClientManagement.SelectOrigin` | client_management.py:49-54 | every selected filter comes from one truthy argument at that rank |
| `ClientManagement.SelectColumns` | client_management.py:75-86 | every selected column is one of the tested columns |
| `ClientManagement.ChangeClient` | client_management.py:47-55 | change_client appends the UPDATE of each truthy argument, in argument order, then one commit |
| `ClientManagement.ChangeClientBatch` | client_management.py:49-55 | change_client sends one UPDATE per truthy argument (at most three), each with one placeholder per parameter, then exactly one commit |
| `ClientManagement.ChangeClientOrder` | client_management.py:49-54 | a truthy argument gives the UPDATE of its column with parameters (value, client id), at its rank among the truthy arguments |
| `ClientManagement.ChangeClientUntouched` | client_management.py:49-54 | a falsy argument gives no UPDATE of its column |
| `ClientManagement.UpdateSqlShape` | client_management.py:50-54 | each of the three UPDATE texts has two placeholders, and the texts for two different columns differ |
| `ClientManagement.AddClient` | client_management.py:25-38 | add_client returns the id read back and appends the client INSERT, one phone INSERT per phone in list order (none for `None` or `[]`), then one commit |
| `ClientManagement.AddClientBatch` | client_management.py:27-37 | add_client sends 2 + number-of-phones actions: well-formed statements, then exactly one commit |
| `ClientManagement.AddClientOrder` | client_management.py:27-36 | the first statement inserts the client with the three names; the phone INSERT at position 1 + i carries (client id, i-th phone) |
| `ClientManagement.PhoneInsertsAt` | client_management.py:32-36 | the loop emits one INSERT per phone, the i-th bound to the client id and the i-th phone |
| `ClientManagement.PhoneInsertsWellFormed` | client_management.py:34-36 | every phone INSERT has one placeholder per parameter |
| `ClientManagement.InsertClientSlots` | client_management.py:27-30 | the client INSERT has three placeholders, one per name |
| `ClientManagement.InsertPhoneSql` | client_management.py:34-44 | the phone INSERT text `INSERT INTO phones (client_id, phone) VALUES (%s, %s);` on a line of its own, its closing quotes indented by `indent` (16 for the literal of lines 34-36, 8 for that of lines 42-44); 2 · indent + 60 characters long |
| `ClientManagement.InsertPhoneSlots` | client_management.py:34-36 | the phone INSERT has two placeholders |
| `ClientManagement.CreateDb` | client_management.py:4-23 | create_db sends the two CREATE TABLE statements without parameters, then one commit |
| `ClientManagement.AddPhone` | client_management.py:40-45 | add_phone sends the phone INSERT bound to (client id, phone), then one commit |
| `ClientManagement.DeletePhone` | client_management.py:57-62 | delete_phone sends the DELETE bound to (client id, phone), then one commit |
| `ClientManagement.DeleteClient` | client_management.py:64-67 | delete_client sends the DELETE bound to the client id, then one commit |
| `Sql.StatementsThenCommit` | client_management.py:23 | well-formed statements followed by one commit form a committed batch |
| `Sql.PlaceholdersJoin` | client_management.py:89 | joining one-placeholder conditions with ` AND ` gives one placeholder per condition |
| `Sql.PlaceholdersTemplate` | client_management.py:50 | literal pieces without `%` joined by `%s` have one placeholder fewer than pieces |
| `Sql.PlaceholdersAppend` | client_management.py:89 | the placeholders of a concatenation add up when the first part does not end in `%` |

## Left out

- The database is not modelled: table contents, the `UNIQUE`, `NOT NULL`,
  foreign-key and cascade constraints, and what a LEFT JOIN returns. The
  lookup's `fetchall` result and the `DictCursor` row type are left out, so
  `FindClient` returns nothing.
- Errors raised by the driver or the database, and how they propagate, are
  not modelled. Every statement is taken to succeed.
- Cursors and their `with` blocks are left out: a statement run on any
  cursor of a connection is recorded on the connection.
- `add_client` reads the new id with `fetchone()[0]`. The model takes that id
  as the argument `returnedId`.
- `phones` may be any Python iterable in the source. It is modelled as
  `Option<seq<string>>`, and client ids as `int`.
- `Sql.Placeholders` counts `%s` markers only. It does not treat psycopg2's
  `%%` escape or other `%` conversions specially; no text in the model holds
  a `%` outside its markers.
- The `__main__` demonstration at the end of the file is left out. It needs a
  live server and prints its results.
- `ClientManagement.CreateDb` models the evidently intended DDL, not the text
  as written, which does not parse (see Findings below). There is no parsed
  behaviour of the file as written to model.

## Findings

| source | as written | input that shows it | evidently intended | confidence | as-written member | corrected member |
|---|---|---|---|---|---|---|
| client_management.py:13 | the literal opened on line 6 is closed by `""`; the literal meant to open on line 15 is likewise meant to close on line 21, which also has `""`; a triple-quoted literal ends only at `"""`, so the first literal runs on to the `"""` on line 15, swallowing `)` and `cur.execute(`, and the phones DDL on line 16 is left outside any literal | loading the module: the text on line 16 is not Python, so the file does not parse and no function can be called | each literal closes with `"""` on its own line, so create_db sends the clients DDL, then the phones DDL, then commits | not executed; read from the source | `ClientManagement.CreateDbLiteralAsWritten` | `ClientManagement.CreateDbActions` |
