/** The client-contact management functions: each one sends a fixed or
    argument-dependent sequence of parameterised statements over a database
    connection and, when it changes data, commits once at the end.

    The database is not modelled: a `Connection` records what is sent to it.
    Ids the database generates are passed in as arguments. */
module ClientManagement {
  import opened Sql

  /** A database connection, seen as the actions sent over it so far. */
  class Connection {
    var log: seq<Action>

    constructor ()
      ensures log == []
    {
      log := [];
    }

    /** `cur.execute(sql, params)` on a cursor of this connection. */
    method Execute(sql: string, params: seq<Value>)
      modifies this
      ensures log == old(log) + [Statement(sql, params)]
    {
      log := log + [Statement(sql, params)];
    }

    /** `conn.commit()`. */
    method Commit()
      modifies this
      ensures log == old(log) + [Action.Commit]
    {
      log := log + [Action.Commit];
    }
  }

  // ---------------------------------------------------------------------
  // Selecting the truthy arguments, in argument order
  // ---------------------------------------------------------------------

  /** A column paired with the value an argument supplied for it. */
  datatype Filter = Filter(column: string, value: string)

  /** Number of truthy values. */
  function TruthyCount(values: seq<Option<string>>): (r: nat)
    ensures r <= |values|
  {
    if values == [] then 0
    else (if Truthy(values[0]) then 1 else 0) + TruthyCount(values[1..])
  }

  /** The columns whose argument is truthy, each with that argument's value,
      in the order the arguments are tested. */
  function Select(columns: seq<string>, values: seq<Option<string>>): (r: seq<Filter>)
    requires |columns| == |values|
    ensures |r| == TruthyCount(values)
  {
    if values == [] then []
    else
      (if Truthy(values[0]) then [Filter(columns[0], values[0].value)] else [])
      + Select(columns[1..], values[1..])
  }

  /** Counting the truthy values among the first k + 1 counts the first
      value, then the truthy values among the next k. */
  lemma TruthyCountPrefix(values: seq<Option<string>>, k: nat)
    requires k < |values|
    ensures TruthyCount(values[..k + 1]) ==
            (if Truthy(values[0]) then 1 else 0) + TruthyCount(values[1..][..k])
  {
    assert values[..k + 1][1..] == values[1..][..k];
    assert values[..k + 1][0] == values[0];
  }

  /** The k-th argument, when truthy, yields the filter at the position given
      by the number of truthy arguments before it. */
  lemma {:induction false} SelectAt(columns: seq<string>, values: seq<Option<string>>, k: nat)
    requires |columns| == |values| && k < |values| && Truthy(values[k])
    ensures TruthyCount(values[..k]) < |Select(columns, values)|
    ensures Select(columns, values)[TruthyCount(values[..k])] == Filter(columns[k], values[k].value)
  {
    if k == 0 {
      assert values[..0] == [];
    } else {
      SelectAt(columns[1..], values[1..], k - 1);
      TruthyCountPrefix(values, k - 1);
    }
  }

  /** Every selected filter comes from one truthy argument, at the position
      given by the number of truthy arguments before it. */
  lemma {:induction false} SelectOrigin(columns: seq<string>, values: seq<Option<string>>, j: nat)
    requires |columns| == |values| && j < |Select(columns, values)|
    ensures exists k :: 0 <= k < |values| && Truthy(values[k]) && TruthyCount(values[..k]) == j &&
                        Select(columns, values)[j] == Filter(columns[k], values[k].value)
  {
    var head := if Truthy(values[0]) then 1 else 0;
    if head == 1 && j == 0 {
      assert values[..0] == [];
    } else {
      var rest := Select(columns[1..], values[1..]);
      assert Select(columns, values)[j] == rest[j - head];
      SelectOrigin(columns[1..], values[1..], j - head);
      var k :| 0 <= k < |values[1..]| && Truthy(values[1..][k]) &&
               TruthyCount(values[1..][..k]) == j - head &&
               rest[j - head] == Filter(columns[1..][k], values[1..][k].value);
      TruthyCountPrefix(values, k);
      assert Truthy(values[k + 1]) && TruthyCount(values[..k + 1]) == j;
    }
  }

  /** Every selected column is one of the given columns. */
  lemma SelectColumns(columns: seq<string>, values: seq<Option<string>>)
    requires |columns| == |values|
    ensures forall j :: 0 <= j < |Select(columns, values)| ==> Select(columns, values)[j].column in columns
  {
    forall j | 0 <= j < |Select(columns, values)|
      ensures Select(columns, values)[j].column in columns
    {
      SelectOrigin(columns, values, j);
    }
  }

  /** A falsy argument contributes nothing: dropping it, or giving it as
      `None` or as `""` instead, selects the same filters. */
  lemma {:induction false} SelectIgnoresFalsy(columns: seq<string>, values: seq<Option<string>>, k: nat)
    requires |columns| == |values| && k < |values| && !Truthy(values[k])
    ensures Select(columns, values) == Select(columns[..k] + columns[k + 1..], values[..k] + values[k + 1..])
    ensures Select(columns, values[k := None]) == Select(columns, values)
    ensures Select(columns, values[k := Some("")]) == Select(columns, values)
  {
    SelectDropFalsy(columns, values, k);
    if k > 0 {
      SelectIgnoresFalsy(columns[1..], values[1..], k - 1);
      assert values[k := None][1..] == values[1..][k - 1 := None];
      assert values[k := Some("")][1..] == values[1..][k - 1 := Some("")];
    }
  }

  lemma {:induction false} SelectDropFalsy(columns: seq<string>, values: seq<Option<string>>, k: nat)
    requires |columns| == |values| && k < |values| && !Truthy(values[k])
    ensures Select(columns, values) == Select(columns[..k] + columns[k + 1..], values[..k] + values[k + 1..])
  {
    var cs := columns[..k] + columns[k + 1..];
    var vs := values[..k] + values[k + 1..];
    if k == 0 {
      assert cs == columns[1..] && vs == values[1..];
    } else {
      SelectDropFalsy(columns[1..], values[1..], k - 1);
      assert cs[1..] == columns[1..][..k - 1] + columns[1..][k..];
      assert vs[1..] == values[1..][..k - 1] + values[1..][k..];
      assert Select(cs, vs) ==
        (if Truthy(vs[0]) then [Filter(cs[0], vs[0].value)] else []) + Select(cs[1..], vs[1..]);
      assert cs[0] == columns[0] && vs[0] == values[0];
    }
  }

  // ---------------------------------------------------------------------
  // find_client
  // ---------------------------------------------------------------------

  /** The fixed part of the lookup: every client joined to each of its
      phones. (Written in short pieces so that facts about its characters
      can be checked piece by piece.) */
  const SelectBase := "SELECT c.id, c.first_name, " + "c.last_name, c.email, p.phone" +
                      " FROM clients c LEFT JOIN" + " phones p ON c.id = p.client_id"

  /** Columns compared by the lookup, in the order its arguments are tested. */
  const FilterColumns := ["c.first_name", "c.last_name", "c.email", "p.phone"]

  function FindArguments(firstName: Option<string>, lastName: Option<string>,
                         email: Option<string>, phone: Option<string>): seq<Option<string>>
  {
    [firstName, lastName, email, phone]
  }

  /** The filters a lookup applies. */
  function FindFilters(firstName: Option<string>, lastName: Option<string>,
                       email: Option<string>, phone: Option<string>): (r: seq<Filter>)
    ensures |r| == TruthyCount(FindArguments(firstName, lastName, email, phone)) <= 4
    ensures forall i :: 0 <= i < |r| ==> r[i].column in FilterColumns
  {
    SelectColumns(FilterColumns, FindArguments(firstName, lastName, email, phone));
    Select(FilterColumns, FindArguments(firstName, lastName, email, phone))
  }

  /** The equality condition of one filter. */
  function Condition(f: Filter): (r: string)
    ensures '%' !in f.column ==> Placeholders(r) == 1 && EndsClean(r)
  {
    ConditionPlaceholder(f.column);
    f.column + " = " + Slot
  }

  /** The conditions of the filters, one per filter, in filter order. */
  function Conditions(fs: seq<Filter>): (r: seq<string>)
    ensures |r| == |fs|
    ensures forall i :: 0 <= i < |r| && '%' !in fs[i].column ==> Placeholders(r[i]) == 1 && EndsClean(r[i])
  {
    seq(|fs|, i requires 0 <= i < |fs| => Condition(fs[i]))
  }

  /** The parameters of the filters: their values as text, one per filter,
      in filter order. */
  function FindParams(fs: seq<Filter>): (r: seq<Value>)
    ensures |r| == |fs|
    ensures forall i :: 0 <= i < |r| ==> r[i].Text? && r[i].text == fs[i].value
  {
    seq(|fs|, i requires 0 <= i < |fs| => Text(fs[i].value))
  }

  /** The lookup text: the base query, and a WHERE clause with the
      conditions joined by AND when there are any. */
  function FindQuery(fs: seq<Filter>): (r: string)
    ensures |SelectBase| <= |r| && r[..|SelectBase|] == SelectBase
    ensures r == SelectBase <==> fs == []
  {
    if fs == [] then SelectBase else SelectBase + " WHERE " + Join(" AND ", Conditions(fs))
  }

  /** Builds the lookup's text and parameters as find_client does, one
      argument at a time. */
  method BuildFind(firstName: Option<string>, lastName: Option<string>,
                   email: Option<string>, phone: Option<string>)
    returns (query: string, params: seq<Value>)
    ensures var fs := FindFilters(firstName, lastName, email, phone);
            query == FindQuery(fs) && params == FindParams(fs)
    ensures Placeholders(query) == |params|
    ensures |SelectBase| <= |query| && query[..|SelectBase|] == SelectBase
    ensures Contains(query, " WHERE ") <==>
            Truthy(firstName) || Truthy(lastName) || Truthy(email) || Truthy(phone)
  {
    query := SelectBase;
    var conditions: seq<string> := [];
    params := [];
    ghost var fs: seq<Filter> := [];
    FindStep(conditions, params, fs, "c.first_name", firstName);
    if Truthy(firstName) {
      conditions := conditions + ["c.first_name" + " = %s"];
      params := params + [Text(firstName.value)];
    }
    fs := fs + Given("c.first_name", firstName);
    assert fs == Given("c.first_name", firstName);
    FindStep(conditions, params, fs, "c.last_name", lastName);
    if Truthy(lastName) {
      conditions := conditions + ["c.last_name" + " = %s"];
      params := params + [Text(lastName.value)];
    }
    fs := fs + Given("c.last_name", lastName);
    FindStep(conditions, params, fs, "c.email", email);
    if Truthy(email) {
      conditions := conditions + ["c.email" + " = %s"];
      params := params + [Text(email.value)];
    }
    fs := fs + Given("c.email", email);
    FindStep(conditions, params, fs, "p.phone", phone);
    if Truthy(phone) {
      conditions := conditions + ["p.phone" + " = %s"];
      params := params + [Text(phone.value)];
    }
    fs := fs + Given("p.phone", phone);
    FindAssemble(conditions, fs);
    if conditions != [] {
      query := query + " WHERE " + Join(" AND ", conditions);
    }
    FindFiltersUnfold(firstName, lastName, email, phone);
    assert fs == FindFilters(firstName, lastName, email, phone);
    FindProperties(firstName, lastName, email, phone);
  }

  /** One `if` of find_client keeps the conditions and parameters built so
      far equal to those of the filters selected so far. */
  lemma FindStep(conditions: seq<string>, params: seq<Value>, fs: seq<Filter>,
                 column: string, value: Option<string>)
    requires conditions == Conditions(fs) && params == FindParams(fs)
    ensures Truthy(value) ==>
              conditions + [column + " = %s"] == Conditions(fs + Given(column, value)) &&
              params + [Text(value.value)] == FindParams(fs + Given(column, value))
    ensures !Truthy(value) ==>
              conditions == Conditions(fs + Given(column, value)) &&
              params == FindParams(fs + Given(column, value))
  {
    if Truthy(value) {
      AppendFilter(fs, Filter(column, value.value));
    } else {
      assert fs + Given(column, value) == fs;
    }
  }

  /** find_client's closing `if` produces the lookup text of the filters. */
  lemma FindAssemble(conditions: seq<string>, fs: seq<Filter>)
    requires conditions == Conditions(fs)
    ensures conditions == [] ==> SelectBase == FindQuery(fs)
    ensures conditions != [] ==> SelectBase + " WHERE " + Join(" AND ", conditions) == FindQuery(fs)
  {
    assert |conditions| == |fs|;
  }

  lemma AppendFilter(fs: seq<Filter>, f: Filter)
    ensures Conditions(fs + [f]) == Conditions(fs) + [f.column + " = %s"]
    ensures FindParams(fs + [f]) == FindParams(fs) + [Text(f.value)]
  {
    assert Condition(f) == f.column + " = %s";
  }

  /** find_client: run the lookup (nothing is committed). */
  method FindClient(conn: Connection, firstName: Option<string>, lastName: Option<string>,
                    email: Option<string>, phone: Option<string>)
    modifies conn
    ensures var fs := FindFilters(firstName, lastName, email, phone);
            conn.log == old(conn.log) + [Statement(FindQuery(fs), FindParams(fs))]
  {
    var query, params := BuildFind(firstName, lastName, email, phone);
    conn.Execute(query, params);
  }

  /** A column name without `%`, compared to one placeholder, holds exactly
      that placeholder. */
  lemma ConditionPlaceholder(column: string)
    ensures '%' !in column ==> Placeholders(column + " = " + Slot) == 1
    ensures EndsClean(column + " = " + Slot)
  {
    if '%' !in column {
      PlaceholdersAppend(column + " = ", Slot);
      assert Placeholders(Slot) == 1 by {
        assert Slot[2..] == [];
      }
    }
  }

  /** Option-like selection of one argument, as find_client's `if` tests it. */
  function Given(column: string, value: Option<string>): seq<Filter>
  {
    if Truthy(value) then [Filter(column, value.value)] else []
  }

  /** Selecting from four arguments tests each in turn. */
  lemma SelectFour(columns: seq<string>, values: seq<Option<string>>)
    requires |columns| == |values| == 4
    ensures Select(columns, values) ==
            Given(columns[0], values[0]) + Given(columns[1], values[1]) +
            Given(columns[2], values[2]) + Given(columns[3], values[3])
  {
    SelectThree(columns[1..], values[1..]);
  }

  /** Selecting from three arguments tests each in turn. */
  lemma SelectThree(columns: seq<string>, values: seq<Option<string>>)
    requires |columns| == |values| == 3
    ensures Select(columns, values) ==
            Given(columns[0], values[0]) + Given(columns[1], values[1]) + Given(columns[2], values[2])
  {
    var c1, v1 := columns[1..], values[1..];
    assert c1[1..][1..] == [] && v1[1..][1..] == [];
    assert Select(c1, v1) == Given(c1[0], v1[0]) + Given(c1[1], v1[1]);
  }

  lemma FindFiltersUnfold(firstName: Option<string>, lastName: Option<string>,
                          email: Option<string>, phone: Option<string>)
    ensures FindFilters(firstName, lastName, email, phone) ==
            Given("c.first_name", firstName) + Given("c.last_name", lastName) +
            Given("c.email", email) + Given("p.phone", phone)
  {
    SelectFour(FilterColumns, FindArguments(firstName, lastName, email, phone));
  }

  lemma FilterColumnsChars()
    ensures forall c :: c in FilterColumns ==> '%' !in c
  {
    assert '%' !in FilterColumns[0] && '%' !in FilterColumns[1];
    assert '%' !in FilterColumns[2] && '%' !in FilterColumns[3];
  }

  /** The lookup text holds exactly one placeholder per parameter. */
  lemma FindPlaceholders(fs: seq<Filter>)
    requires forall i :: 0 <= i < |fs| ==> fs[i].column in FilterColumns
    ensures Placeholders(FindQuery(fs)) == |FindParams(fs)|
  {
    if fs == [] {
      SelectBaseChars();
    } else {
      var conds := Conditions(fs);
      FilterColumnsChars();
      assert forall i :: 0 <= i < |conds| ==> EndsClean(conds[i]) && Placeholders(conds[i]) == 1;
      PlaceholdersJoin(" AND ", conds);
      WhereHead();
      PlaceholdersAppend(SelectBase + " WHERE ", Join(" AND ", conds));
    }
  }

  /** The base text with ` WHERE ` appended holds no placeholder and does not
      end in `%`. */
  lemma WhereHead()
    ensures Placeholders(SelectBase + " WHERE ") == 0 && EndsClean(SelectBase + " WHERE ")
  {
    SelectBaseChars();
    var head := SelectBase + " WHERE ";
    assert '%' !in head;
    assert head[|head| - 1] == ' ';
  }

  /** The lookup has a WHERE clause exactly when some filter applies, and
      always starts with the unchanged base text. */
  lemma FindWhere(fs: seq<Filter>)
    ensures Contains(FindQuery(fs), " WHERE ") <==> fs != []
    ensures |SelectBase| <= |FindQuery(fs)| && FindQuery(fs)[..|SelectBase|] == SelectBase
    ensures fs == [] ==> FindQuery(fs) == SelectBase && FindParams(fs) == []
  {
    if fs == [] {
      SelectBaseChars();
      ContainsNeedsChar(SelectBase, " WHERE ", 'W');
    } else {
      ContainsAt(SelectBase, " WHERE ", Join(" AND ", Conditions(fs)));
    }
  }

  /** What the lookup promises for any arguments: one placeholder per
      parameter, the base text unchanged at the front, a WHERE clause
      exactly when some argument is truthy, and with no truthy argument the
      bare base text with no parameters. */
  lemma FindProperties(firstName: Option<string>, lastName: Option<string>,
                       email: Option<string>, phone: Option<string>)
    ensures var fs := FindFilters(firstName, lastName, email, phone);
            var query := FindQuery(fs);
            Placeholders(query) == |FindParams(fs)| &&
            |SelectBase| <= |query| && query[..|SelectBase|] == SelectBase &&
            (Contains(query, " WHERE ") <==>
               Truthy(firstName) || Truthy(lastName) || Truthy(email) || Truthy(phone)) &&
            (!Truthy(firstName) && !Truthy(lastName) && !Truthy(email) && !Truthy(phone) ==>
               query == SelectBase && FindParams(fs) == [])
  {
    var fs := FindFilters(firstName, lastName, email, phone);
    FindFiltersUnfold(firstName, lastName, email, phone);
    SelectColumns(FilterColumns, FindArguments(firstName, lastName, email, phone));
    FindPlaceholders(fs);
    FindWhere(fs);
  }

  /** A truthy argument gives the condition on its column and a parameter
      holding the argument unchanged, both at the position given by the
      number of truthy arguments before it (first name, last name, email,
      phone, in that order). */
  lemma FindOrder(firstName: Option<string>, lastName: Option<string>,
                  email: Option<string>, phone: Option<string>, k: nat)
    requires k < 4 && Truthy(FindArguments(firstName, lastName, email, phone)[k])
    ensures var args := FindArguments(firstName, lastName, email, phone);
            var fs := FindFilters(firstName, lastName, email, phone);
            var at := TruthyCount(args[..k]);
            at < |fs| && |Conditions(fs)| == |FindParams(fs)| == TruthyCount(args) &&
            Conditions(fs)[at] == FilterColumns[k] + " = %s" &&
            FindParams(fs)[at] == Text(args[k].value)
  {
    ConditionAt(FilterColumns, FindArguments(firstName, lastName, email, phone), k);
  }

  lemma ConditionAt(columns: seq<string>, values: seq<Option<string>>, k: nat)
    requires |columns| == |values| && k < |values| && Truthy(values[k])
    ensures var fs := Select(columns, values);
            var at := TruthyCount(values[..k]);
            at < |fs| && |Conditions(fs)| == |FindParams(fs)| == TruthyCount(values) &&
            Conditions(fs)[at] == columns[k] + " = %s" &&
            FindParams(fs)[at] == Text(values[k].value)
  {
    SelectAt(columns, values, k);
  }

  /** Every parameter of a lookup is the unchanged value of one truthy
      argument, sitting at that argument's position among the truthy ones. */
  lemma FindParamOrigin(firstName: Option<string>, lastName: Option<string>,
                        email: Option<string>, phone: Option<string>, j: nat)
    requires j < |FindParams(FindFilters(firstName, lastName, email, phone))|
    ensures var args := FindArguments(firstName, lastName, email, phone);
            exists k :: 0 <= k < 4 && Truthy(args[k]) && TruthyCount(args[..k]) == j &&
                        FindParams(FindFilters(firstName, lastName, email, phone))[j] == Text(args[k].value)
  {
    var args := FindArguments(firstName, lastName, email, phone);
    var fs := FindFilters(firstName, lastName, email, phone);
    SelectOrigin(FilterColumns, args, j);
    var k :| 0 <= k < |args| && Truthy(args[k]) && TruthyCount(args[..k]) == j &&
             fs[j] == Filter(FilterColumns[k], args[k].value);
    assert FindParams(fs)[j] == Text(args[k].value);
  }

  // ---------------------------------------------------------------------
  // change_client
  // ---------------------------------------------------------------------

  /** Columns change_client may update, in the order its arguments are tested. */
  const UpdateColumns := ["first_name", "last_name", "email"]

  /** `UPDATE clients SET <column> = %s WHERE id = %s;` */
  function UpdateSql(column: string): (r: string)
    ensures |r| == |column| + 39
  {
    var pieces := ["UPDATE clients SET " + column + " = ", " WHERE id = ", ";"];
    assert pieces[1..][1..] == [";"];
    assert Join(Slot, pieces[1..]) == pieces[1] + Slot + ";";
    Template(pieces)
  }

  function ChangeArguments(firstName: Option<string>, lastName: Option<string>,
                           email: Option<string>): seq<Option<string>>
  {
    [firstName, lastName, email]
  }

  /** One UPDATE per filter, bound to the new value and the client's id. */
  function Updates(clientId: int, fs: seq<Filter>): (r: seq<Action>)
    ensures |r| == |fs|
    ensures forall i :: 0 <= i < |r| ==>
              r[i].Statement? && |r[i].params| == 2 && r[i].params[1] == Int(clientId) &&
              |r[i].sql| == |fs[i].column| + 39
  {
    seq(|fs|, i requires 0 <= i < |fs| =>
      Statement(UpdateSql(fs[i].column), [Text(fs[i].value), Int(clientId)]))
  }

  /** What change_client sends: the updates of its truthy arguments, then a commit. */
  function ChangeClientActions(clientId: int, firstName: Option<string>,
                               lastName: Option<string>, email: Option<string>): (r: seq<Action>)
    ensures |r| == 1 + TruthyCount(ChangeArguments(firstName, lastName, email)) <= 4
    ensures r[|r| - 1] == Commit && forall i :: 0 <= i < |r| - 1 ==> r[i].Statement?
  {
    Updates(clientId, Select(UpdateColumns, ChangeArguments(firstName, lastName, email))) + [Commit]
  }

  method ChangeClient(conn: Connection, clientId: int, firstName: Option<string>,
                      lastName: Option<string>, email: Option<string>)
    modifies conn
    ensures conn.log == old(conn.log) + ChangeClientActions(clientId, firstName, lastName, email)
  {
    ghost var start := conn.log;
    ghost var fs: seq<Filter> := [];
    assert conn.log == start + Updates(clientId, fs);
    UpdateStep(start, conn.log, clientId, fs, "first_name", firstName);
    if Truthy(firstName) {
      conn.Execute(UpdateSql("first_name"), [Text(firstName.value), Int(clientId)]);
    }
    fs := fs + Given("first_name", firstName);
    assert fs == Given("first_name", firstName);
    UpdateStep(start, conn.log, clientId, fs, "last_name", lastName);
    if Truthy(lastName) {
      conn.Execute(UpdateSql("last_name"), [Text(lastName.value), Int(clientId)]);
    }
    fs := fs + Given("last_name", lastName);
    UpdateStep(start, conn.log, clientId, fs, "email", email);
    if Truthy(email) {
      conn.Execute(UpdateSql("email"), [Text(email.value), Int(clientId)]);
    }
    fs := fs + Given("email", email);
    ChangeClientClose(start, conn.log, clientId, fs, firstName, lastName, email);
    conn.Commit();
  }

  /** After the three `if`s, the commit completes change_client's actions. */
  lemma ChangeClientClose(start: seq<Action>, log: seq<Action>, clientId: int, fs: seq<Filter>,
                          firstName: Option<string>, lastName: Option<string>, email: Option<string>)
    requires fs == Given("first_name", firstName) + Given("last_name", lastName) + Given("email", email)
    requires log == start + Updates(clientId, fs)
    ensures log + [Commit] == start + ChangeClientActions(clientId, firstName, lastName, email)
  {
    ChangeSelectUnfold(firstName, lastName, email);
    LogThenCommitAll(start, Updates(clientId, fs), log);
  }

  lemma LogThenCommitAll(before: seq<Action>, rest: seq<Action>, log: seq<Action>)
    requires log == before + rest
    ensures log + [Commit] == before + (rest + [Commit])
  {
  }

  /** One `if` of change_client appends the update of its argument exactly
      when the argument is truthy. */
  lemma UpdateStep(start: seq<Action>, log: seq<Action>, clientId: int, fs: seq<Filter>,
                   column: string, value: Option<string>)
    requires log == start + Updates(clientId, fs)
    ensures Truthy(value) ==>
              log + [Statement(UpdateSql(column), [Text(value.value), Int(clientId)])] ==
              start + Updates(clientId, fs + Given(column, value))
    ensures !Truthy(value) ==> log == start + Updates(clientId, fs + Given(column, value))
  {
    if !Truthy(value) {
      assert fs + Given(column, value) == fs;
    } else {
      var f := Filter(column, value.value);
      assert Updates(clientId, fs + [f]) == Updates(clientId, fs) + [Statement(UpdateSql(column), [Text(value.value), Int(clientId)])];
    }
  }

  lemma ChangeSelectUnfold(firstName: Option<string>, lastName: Option<string>, email: Option<string>)
    ensures Select(UpdateColumns, ChangeArguments(firstName, lastName, email)) ==
            Given("first_name", firstName) + Given("last_name", lastName) + Given("email", email)
  {
    SelectThree(UpdateColumns, ChangeArguments(firstName, lastName, email));
  }

  /** Each UPDATE text has two placeholders, and the three columns give
      three different texts. */
  lemma UpdateSqlShape(column: string)
    requires column in UpdateColumns
    ensures Placeholders(UpdateSql(column)) == 2
    ensures forall c :: c in UpdateColumns && c != column ==> UpdateSql(c) != UpdateSql(column)
  {
    UpdateSqlSlots(column);
    UpdateSqlDistinct();
  }

  lemma UpdateSqlSlots(column: string)
    requires '%' !in column
    ensures Placeholders(UpdateSql(column)) == 2
  {
    assert '%' !in "UPDATE clients SET " && '%' !in " WHERE id = ";
    PlaceholdersTemplate(["UPDATE clients SET " + column + " = ", " WHERE id = ", ";"]);
  }

  lemma UpdateSqlDistinct()
    ensures forall c, d :: c in UpdateColumns && d in UpdateColumns && c != d ==> UpdateSql(c) != UpdateSql(d)
  {
    assert |UpdateColumns[0]| == 10 && |UpdateColumns[1]| == 9 && |UpdateColumns[2]| == 5;
  }

  /** change_client sends at most three statements, one per truthy argument,
      each with one placeholder per parameter, and then exactly one commit. */
  lemma ChangeClientBatch(clientId: int, firstName: Option<string>,
                          lastName: Option<string>, email: Option<string>)
    ensures var acts := ChangeClientActions(clientId, firstName, lastName, email);
            CommittedBatch(acts) &&
            |acts| == 1 + TruthyCount(ChangeArguments(firstName, lastName, email)) <= 4
  {
    var args := ChangeArguments(firstName, lastName, email);
    var fs := Select(UpdateColumns, args);
    SelectColumns(UpdateColumns, args);
    forall i | 0 <= i < |fs|
      ensures Placeholders(UpdateSql(fs[i].column)) == 2
    {
      UpdateSqlShape(fs[i].column);
    }
  }

  /** A truthy argument gives the UPDATE of its column, bound to the value
      unchanged and the client's id, at the position given by the number of
      truthy arguments before it (first name, last name, email). */
  lemma ChangeClientOrder(clientId: int, firstName: Option<string>,
                          lastName: Option<string>, email: Option<string>, k: nat)
    requires k < 3 && Truthy(ChangeArguments(firstName, lastName, email)[k])
    ensures var args := ChangeArguments(firstName, lastName, email);
            var acts := ChangeClientActions(clientId, firstName, lastName, email);
            var at := TruthyCount(args[..k]);
            at < |acts| - 1 &&
            acts[at] == Statement(UpdateSql(UpdateColumns[k]), [Text(args[k].value), Int(clientId)])
  {
    SelectAt(UpdateColumns, ChangeArguments(firstName, lastName, email), k);
  }

  /** A falsy argument (`None` or `""`) produces no UPDATE of its column:
      that column is left as it is. */
  lemma ChangeClientUntouched(clientId: int, firstName: Option<string>,
                              lastName: Option<string>, email: Option<string>, k: nat)
    requires k < 3 && !Truthy(ChangeArguments(firstName, lastName, email)[k])
    ensures var acts := ChangeClientActions(clientId, firstName, lastName, email);
            forall i :: 0 <= i < |acts| && acts[i].Statement? ==>
                        acts[i].sql != UpdateSql(UpdateColumns[k])
  {
    var args := ChangeArguments(firstName, lastName, email);
    var fs := Select(UpdateColumns, args);
    var acts := ChangeClientActions(clientId, firstName, lastName, email);
    UpdateSqlShape(UpdateColumns[k]);
    forall i | 0 <= i < |acts| && acts[i].Statement?
      ensures acts[i].sql != UpdateSql(UpdateColumns[k])
    {
      if i < |fs| {
        SelectOrigin(UpdateColumns, args, i);
        var k' :| 0 <= k' < |args| && Truthy(args[k']) && TruthyCount(args[..k']) == i &&
                  fs[i] == Filter(UpdateColumns[k'], args[k'].value);
        UpdateSqlShape(UpdateColumns[k']);
        assert k' != k;
        assert |UpdateColumns[k']| != |UpdateColumns[k]|;
      }
    }
  }

  // ---------------------------------------------------------------------
  // add_client
  // ---------------------------------------------------------------------

  /** The literal text around the placeholders of the client INSERT, with
      the line breaks and indentation of its triple-quoted source. */
  const InsertClientPieces := ["\n" + Spaces(12) + "INSERT INTO clients " + "(first_name, last_name, email)\n" +
                               Spaces(12) + "VALUES (", ", ", ", ", ") RETURNING id;\n" + Spaces(8)]

  const InsertClientSql := Template(InsertClientPieces)

  /** The text around the placeholders of `INSERT INTO phones (client_id,
      phone) VALUES (%s, %s);` on a line of its own, for a literal whose
      closing quotes sit `indent` columns in. */
  function InsertPhonePieces(indent: nat): seq<string>
  {
    ["\n" + Spaces(indent + 4) + "INSERT INTO phones " + "(client_id, phone) VALUES (", ", ", ");\n" + Spaces(indent)]
  }

  function InsertPhoneSql(indent: nat): (r: string)
    ensures |r| == 2 * indent + 60
  {
    var pieces := InsertPhonePieces(indent);
    assert pieces[1..][1..] == [pieces[2]];
    assert Join(Slot, pieces[1..]) == pieces[1] + Slot + pieces[2];
    Template(pieces)
  }

  /** The INSERT of one phone of a new client. */
  function PhoneInsert(clientId: int, phone: string): Action
  {
    Statement(InsertPhoneSql(16), [Int(clientId), Text(phone)])
  }

  /** The statement `sql` run once per phone, bound to (client id, phone),
      in list order. */
  function BindPhones(sql: string, clientId: int, phones: seq<string>): (r: seq<Action>)
    ensures |r| == |phones|
  {
    if phones == [] then []
    else BindPhones(sql, clientId, phones[..|phones| - 1]) +
         [Statement(sql, [Int(clientId), Text(phones[|phones| - 1])])]
  }

  /** The phone INSERTs add_client sends, one per phone, in list order. */
  function PhoneInserts(clientId: int, phones: seq<string>): (r: seq<Action>)
    ensures |r| == |phones|
  {
    BindPhones(InsertPhoneSql(16), clientId, phones)
  }

  /** What add_client sends: the client INSERT, the phone INSERTs, a commit.
      `clientId` is the id the database returned for the new row. */
  function AddClientActions(firstName: string, lastName: string, email: string,
                            phones: Option<seq<string>>, clientId: int): (r: seq<Action>)
    ensures |r| == 2 + (if phones.Some? then |phones.value| else 0)
    ensures r[0] == Statement(InsertClientSql, [Text(firstName), Text(lastName), Text(email)])
    ensures r[|r| - 1] == Commit
  {
    [Statement(InsertClientSql, [Text(firstName), Text(lastName), Text(email)])] +
    (if phones.Some? then PhoneInserts(clientId, phones.value) else []) +
    [Commit]
  }

  /** add_client; `returnedId` stands for the id the INSERT ... RETURNING id
      reads back. */
  method AddClient(conn: Connection, firstName: string, lastName: string, email: string,
                   phones: Option<seq<string>>, returnedId: int)
    returns (clientId: int)
    modifies conn
    ensures clientId == returnedId
    ensures conn.log == old(conn.log) + AddClientActions(firstName, lastName, email, phones, clientId)
  {
    ghost var before := conn.log;
    conn.Execute(InsertClientSql, [Text(firstName), Text(lastName), Text(email)]);
    clientId := returnedId;
    ghost var start := conn.log;
    if phones.Some? && phones.value != [] {
      var list := phones.value;
      assert list[..0] == [];
      for i := 0 to |list|
        invariant conn.log == start + PhoneInserts(clientId, list[..i])
      {
        PhoneStep(start, conn.log, clientId, list, i);
        conn.Execute(InsertPhoneSql(16), [Int(clientId), Text(list[i])]);
      }
      assert list[..|list|] == list;
    }
    AddClientClose(before, start, conn.log, firstName, lastName, email, phones, clientId);
    conn.Commit();
  }

  /** After the phone loop, the commit completes add_client's actions. */
  lemma AddClientClose(before: seq<Action>, start: seq<Action>, log: seq<Action>,
                       firstName: string, lastName: string, email: string,
                       phones: Option<seq<string>>, clientId: int)
    requires start == before + [Statement(InsertClientSql, [Text(firstName), Text(lastName), Text(email)])]
    requires phones.Some? && phones.value != [] ==> log == start + PhoneInserts(clientId, phones.value)
    requires !(phones.Some? && phones.value != []) ==> log == start
    ensures log + [Commit] == before + AddClientActions(firstName, lastName, email, phones, clientId)
  {
    var lead := Statement(InsertClientSql, [Text(firstName), Text(lastName), Text(email)]);
    if phones.Some? && phones.value != [] {
      LogThenCommit(before, lead, PhoneInserts(clientId, phones.value), log);
    } else {
      assert phones.Some? ==> PhoneInserts(clientId, phones.value) == [];
      LogThenCommit(before, lead, [], log);
    }
  }

  lemma LogThenCommit(before: seq<Action>, lead: Action, rest: seq<Action>, log: seq<Action>)
    requires log == before + [lead] + rest
    ensures log + [Commit] == before + ([lead] + rest + [Commit])
  {
  }

  /** One pass of add_client's loop appends the INSERT of the next phone. */
  lemma PhoneStep(start: seq<Action>, log: seq<Action>, clientId: int, phones: seq<string>, i: nat)
    requires i < |phones| && log == start + PhoneInserts(clientId, phones[..i])
    ensures log + [PhoneInsert(clientId, phones[i])] == start + PhoneInserts(clientId, phones[..i + 1])
  {
    BindStep(InsertPhoneSql(16), start, log, clientId, phones, i);
  }

  lemma BindStep(sql: string, start: seq<Action>, log: seq<Action>, clientId: int, phones: seq<string>, i: nat)
    requires i < |phones| && log == start + BindPhones(sql, clientId, phones[..i])
    ensures log + [Statement(sql, [Int(clientId), Text(phones[i])])] ==
            start + BindPhones(sql, clientId, phones[..i + 1])
  {
    assert phones[..i + 1][..i] == phones[..i];
  }

  /** The i-th phone INSERT carries the client's id and the i-th phone. */
  lemma PhoneInsertsAt(clientId: int, phones: seq<string>)
    ensures |PhoneInserts(clientId, phones)| == |phones|
    ensures forall i :: 0 <= i < |phones| ==> PhoneInserts(clientId, phones)[i] == PhoneInsert(clientId, phones[i])
  {
    BindPhonesAt(InsertPhoneSql(16), clientId, phones);
  }

  /** The i-th bound statement carries the client's id and the i-th phone. */
  lemma {:induction false} BindPhonesAt(sql: string, clientId: int, phones: seq<string>)
    ensures forall i :: 0 <= i < |phones| ==>
              BindPhones(sql, clientId, phones)[i] == Statement(sql, [Int(clientId), Text(phones[i])])
  {
    if phones != [] {
      var init := phones[..|phones| - 1];
      BindPhonesAt(sql, clientId, init);
      forall i | 0 <= i < |phones|
        ensures BindPhones(sql, clientId, phones)[i] == Statement(sql, [Int(clientId), Text(phones[i])])
      {
        if i < |init| {
          assert phones[i] == init[i];
        }
      }
    }
  }

  /** The phone INSERT has two placeholders, whatever its indentation. */
  lemma InsertPhoneSlots(indent: nat)
    ensures Placeholders(InsertPhoneSql(indent)) == 2
  {
    InsertPhonesIntoChars();
    InsertPhonesValuesChars();
    PlaceholdersTemplate(InsertPhonePieces(indent));
  }

  /** The client INSERT has three placeholders. */
  lemma InsertClientSlots()
    ensures Placeholders(InsertClientSql) == 3
  {
    InsertClientsIntoChars();
    InsertClientsColumnsChars();
    ReturningIdChars();
    PlaceholdersTemplate(InsertClientPieces);
  }

  /** Every phone INSERT has one placeholder per parameter. */
  lemma PhoneInsertsWellFormed(clientId: int, phones: seq<string>)
    ensures forall i :: 0 <= i < |PhoneInserts(clientId, phones)| ==>
              PhoneInserts(clientId, phones)[i].Statement? && WellFormed(PhoneInserts(clientId, phones)[i])
  {
    PhoneInsertsAt(clientId, phones);
    InsertPhoneSlots(16);
  }

  /** add_client sends one client INSERT and one phone INSERT per phone (none
      for `None` or an empty list), every one with one placeholder per
      parameter, then exactly one commit. */
  lemma AddClientBatch(firstName: string, lastName: string, email: string,
                       phones: Option<seq<string>>, clientId: int)
    ensures var acts := AddClientActions(firstName, lastName, email, phones, clientId);
            CommittedBatch(acts) &&
            |acts| == 2 + (if phones.Some? then |phones.value| else 0)
  {
    var list := if phones.Some? then phones.value else [];
    PhoneInsertsWellFormed(clientId, list);
    PhoneInsertsAt(clientId, list);
    InsertClientSlots();
    LeadThenCommit(Statement(InsertClientSql, [Text(firstName), Text(lastName), Text(email)]),
                   PhoneInserts(clientId, list));
  }

  /** add_client's first statement inserts the client with the three names;
      the i-th phone INSERT follows it at position 1 + i, bound to the
      returned id and the i-th phone, so phones keep their list order. */
  lemma AddClientOrder(firstName: string, lastName: string, email: string,
                       phones: Option<seq<string>>, clientId: int)
    ensures var acts := AddClientActions(firstName, lastName, email, phones, clientId);
            var list := if phones.Some? then phones.value else [];
            |acts| == 2 + |list| &&
            acts[0] == Statement(InsertClientSql, [Text(firstName), Text(lastName), Text(email)]) &&
            (forall i :: 0 <= i < |list| ==>
               acts[1 + i] == Statement(InsertPhoneSql(16), [Int(clientId), Text(list[i])]))
  {
    var list := if phones.Some? then phones.value else [];
    PhoneInsertsAt(clientId, list);
    assert PhoneInserts(clientId, []) == [];
  }

  // ---------------------------------------------------------------------
  // create_db, add_phone, delete_phone, delete_client: fixed statements
  // ---------------------------------------------------------------------

  /** The clients table, as the literal of create_db evidently intends it. */
  const CreateClientsSql :=
    "\n" + Spaces(12) + "CREATE TABLE IF NOT EXISTS clients (\n" +
    Spaces(16) + "id SERIAL PRIMARY KEY,\n" +
    Spaces(16) + "first_name VARCHAR(50) NOT NULL,\n" +
    Spaces(16) + "last_name VARCHAR(50) NOT NULL,\n" +
    Spaces(16) + "email VARCHAR(100) UNIQUE NOT NULL\n" +
    Spaces(12) + ");\n" + Spaces(8)

  /** The phones table, as the literal of create_db evidently intends it. */
  const CreatePhonesSql :=
    "\n" + Spaces(12) + "CREATE TABLE IF NOT EXISTS phones (\n" +
    Spaces(16) + "id SERIAL PRIMARY KEY,\n" +
    Spaces(16) + "client_id INTEGER REFERENCES " + "clients(id) ON DELETE CASCADE,\n" +
    Spaces(16) + "phone VARCHAR(20) UNIQUE\n" +
    Spaces(12) + ");\n" + Spaces(8)

  /** The first literal of create_db as it is written: its closing quotes
      on line 13 are two characters, not three, so the literal does not end
      there but runs on through the closing parenthesis and the next
      `cur.execute(` up to the opening quotes of the second literal. */
  const CreateClientsLiteralAsWritten :=
    CreateClientsSql + "\"\"\n" + Spaces(8) + ")\n" + Spaces(8) + "cur.execute("

  /** As written, the first literal of create_db is not the clients table's
      DDL: it extends that text and swallows the call that should send the
      phones table, whose DDL is then left outside any literal (and the file
      does not parse). */
  lemma CreateDbLiteralAsWritten()
    ensures |CreateClientsSql| < |CreateClientsLiteralAsWritten|
    ensures CreateClientsLiteralAsWritten[..|CreateClientsSql|] == CreateClientsSql
    ensures Contains(CreateClientsLiteralAsWritten, "cur.execute(")
  {
    var head := CreateClientsSql + "\"\"\n" + Spaces(8) + ")\n" + Spaces(8);
    ContainsAt(head, "cur.execute(", "");
    assert head + "cur.execute(" + "" == CreateClientsLiteralAsWritten;
  }

  const DeletePhonePieces := ["\n" + Spaces(12) + "DELETE FROM phones WHERE " + "client_id = ",
                              " AND phone = ", ";\n" + Spaces(8)]

  const DeletePhoneSql := Template(DeletePhonePieces)

  const DeleteClientSql := Template(["DELETE FROM clients WHERE id = ", ";"])

  /** What create_db sends: the two CREATE TABLE statements, which take no
      parameters, then exactly one commit. */
  function CreateDbActions(): (r: seq<Action>)
    ensures CommittedBatch(r) && |r| == 3
  {
    CreateTablesChars();
    StatementsThenCommit([Statement(CreateClientsSql, []), Statement(CreatePhonesSql, [])]);
    [Statement(CreateClientsSql, []), Statement(CreatePhonesSql, [])] + [Commit]
  }

  /** What add_phone sends: the phone INSERT, with one placeholder per
      parameter, then exactly one commit. */
  function AddPhoneActions(clientId: int, phone: string): (r: seq<Action>)
    ensures CommittedBatch(r) && |r| == 2
  {
    InsertPhoneSlots(8);
    StatementsThenCommit([Statement(InsertPhoneSql(8), [Int(clientId), Text(phone)])]);
    [Statement(InsertPhoneSql(8), [Int(clientId), Text(phone)])] + [Commit]
  }

  /** What delete_phone sends: the DELETE, with one placeholder per
      parameter, then exactly one commit. */
  function DeletePhoneActions(clientId: int, phone: string): (r: seq<Action>)
    ensures CommittedBatch(r) && |r| == 2
  {
    DeletePhonesChars();
    assert '%' !in "client_id = " && '%' !in " AND phone = ";
    PlaceholdersTemplate(DeletePhonePieces);
    StatementsThenCommit([Statement(DeletePhoneSql, [Int(clientId), Text(phone)])]);
    [Statement(DeletePhoneSql, [Int(clientId), Text(phone)])] + [Commit]
  }

  /** What delete_client sends: the DELETE, with one placeholder for the
      id, then exactly one commit. */
  function DeleteClientActions(clientId: int): (r: seq<Action>)
    ensures CommittedBatch(r) && |r| == 2
  {
    DeleteClientsChars();
    PlaceholdersTemplate(["DELETE FROM clients WHERE id = ", ";"]);
    StatementsThenCommit([Statement(DeleteClientSql, [Int(clientId)])]);
    [Statement(DeleteClientSql, [Int(clientId)])] + [Commit]
  }

  method CreateDb(conn: Connection)
    modifies conn
    ensures conn.log == old(conn.log) + CreateDbActions()
  {
    conn.Execute(CreateClientsSql, []);
    conn.Execute(CreatePhonesSql, []);
    conn.Commit();
  }

  method AddPhone(conn: Connection, clientId: int, phone: string)
    modifies conn
    ensures conn.log == old(conn.log) + AddPhoneActions(clientId, phone)
  {
    conn.Execute(InsertPhoneSql(8), [Int(clientId), Text(phone)]);
    conn.Commit();
  }

  method DeletePhone(conn: Connection, clientId: int, phone: string)
    modifies conn
    ensures conn.log == old(conn.log) + DeletePhoneActions(clientId, phone)
  {
    conn.Execute(DeletePhoneSql, [Int(clientId), Text(phone)]);
    conn.Commit();
  }

  method DeleteClient(conn: Connection, clientId: int)
    modifies conn
    ensures conn.log == old(conn.log) + DeleteClientActions(clientId)
  {
    conn.Execute(DeleteClientSql, [Int(clientId)]);
    conn.Commit();
  }

  // ---------------------------------------------------------------------
  // Characters of the literal pieces: none holds a `%`, so none holds a
  // placeholder; those of the base lookup hold no `W` either, so the base
  // lookup holds no WHERE. One piece per lemma keeps each proof small.
  // ---------------------------------------------------------------------

  lemma SelectIdChars()
    ensures '%' !in "SELECT c.id, c.first_name, " && 'W' !in "SELECT c.id, c.first_name, "
  {
  }

  lemma SelectNamesChars()
    ensures '%' !in "c.last_name, c.email, p.phone" && 'W' !in "c.last_name, c.email, p.phone"
  {
  }

  lemma FromClientsChars()
    ensures '%' !in " FROM clients c LEFT JOIN" && 'W' !in " FROM clients c LEFT JOIN"
  {
  }

  lemma OnClientIdChars()
    ensures '%' !in " phones p ON c.id = p.client_id" && 'W' !in " phones p ON c.id = p.client_id"
  {
  }

  lemma InsertPhonesIntoChars()
    ensures '%' !in "INSERT INTO phones "
  {
  }

  lemma InsertPhonesValuesChars()
    ensures '%' !in "(client_id, phone) VALUES ("
  {
  }

  lemma InsertClientsIntoChars()
    ensures '%' !in "INSERT INTO clients "
  {
  }

  lemma InsertClientsColumnsChars()
    ensures '%' !in "(first_name, last_name, email)\n"
  {
  }

  lemma ReturningIdChars()
    ensures '%' !in ") RETURNING id;\n"
  {
  }

  lemma CreateClientsChars()
    ensures '%' !in "CREATE TABLE IF NOT EXISTS clients (\n"
  {
  }

  lemma IdColumnChars()
    ensures '%' !in "id SERIAL PRIMARY KEY,\n"
  {
  }

  lemma FirstNameColumnChars()
    ensures '%' !in "first_name VARCHAR(50) NOT NULL,\n"
  {
  }

  lemma LastNameColumnChars()
    ensures '%' !in "last_name VARCHAR(50) NOT NULL,\n"
  {
  }

  lemma EmailColumnChars()
    ensures '%' !in "email VARCHAR(100) UNIQUE NOT NULL\n"
  {
  }

  lemma CreatePhonesChars()
    ensures '%' !in "CREATE TABLE IF NOT EXISTS phones (\n"
  {
  }

  lemma ClientIdColumnChars()
    ensures '%' !in "client_id INTEGER REFERENCES "
  {
  }

  lemma CascadeChars()
    ensures '%' !in "clients(id) ON DELETE CASCADE,\n"
  {
  }

  lemma PhoneColumnChars()
    ensures '%' !in "phone VARCHAR(20) UNIQUE\n"
  {
  }

  lemma DeletePhonesChars()
    ensures '%' !in "DELETE FROM phones WHERE "
  {
  }

  lemma DeleteClientsChars()
    ensures '%' !in "DELETE FROM clients WHERE id = "
  {
  }

  lemma SelectBaseChars()
    ensures '%' !in SelectBase && 'W' !in SelectBase
  {
    SelectIdChars();
    SelectNamesChars();
    FromClientsChars();
    OnClientIdChars();
  }

  lemma CreateTablesChars()
    ensures '%' !in CreateClientsSql && '%' !in CreatePhonesSql
  {
    CreateClientsChars();
    IdColumnChars();
    FirstNameColumnChars();
    LastNameColumnChars();
    EmailColumnChars();
    CreatePhonesChars();
    ClientIdColumnChars();
    CascadeChars();
    PhoneColumnChars();
  }
}
