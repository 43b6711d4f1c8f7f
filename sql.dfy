/** Parameterised SQL statements as the client-management functions hand them
    to the database driver: a SQL text in which every parameter is marked by a
    `%s` placeholder, and the tuple of values that fill the placeholders in order. */
module Sql {

  datatype Option<T> = None | Some(value: T)

  /** Python's truthiness for an optional string argument: `None` and `""`
      are both falsy. */
  predicate Truthy(o: Option<string>)
    ensures Truthy(o) <==> o != None && o != Some("")
  {
    o.Some? && o.value != ""
  }

  /** A value bound to a placeholder. */
  datatype Value = Text(text: string) | Int(n: int)

  /** What an operation sends over the connection: a statement run through a
      cursor, or a commit of the connection. */
  datatype Action = Statement(sql: string, params: seq<Value>) | Commit

  /** The driver's parameter marker. */
  const Slot := "%s"

  /** Number of `%s` markers in `s`, scanned left to right. */
  function Placeholders(s: string): (r: nat)
    ensures '%' !in s ==> r == 0
    ensures r <= |s| / 2
  {
    if |s| < 2 then 0
    else if s[0] == '%' && s[1] == 's' then 1 + Placeholders(s[2..])
    else Placeholders(s[1..])
  }

  /** `s` does not end in the first half of a marker, so a marker cannot
      straddle the end of `s` and whatever is appended to it. */
  predicate EndsClean(s: string)
  {
    s == [] || s[|s| - 1] != '%'
  }

  /** A statement is well formed when its text has exactly one placeholder
      per parameter; a commit carries no parameters. */
  predicate WellFormed(a: Action)
  {
    a.Statement? ==> Placeholders(a.sql) == |a.params|
  }

  /** The shape of every mutating operation: well-formed statements, then
      exactly one commit, last. */
  predicate CommittedBatch(acts: seq<Action>)
  {
    |acts| >= 1 && acts[|acts| - 1] == Commit &&
    (forall i :: 0 <= i < |acts| - 1 ==> acts[i].Statement?) &&
    (forall i :: 0 <= i < |acts| ==> WellFormed(acts[i]))
  }

  /** Well-formed statements followed by one commit form a committed batch. */
  lemma StatementsThenCommit(stmts: seq<Action>)
    requires forall i :: 0 <= i < |stmts| ==> stmts[i].Statement? && WellFormed(stmts[i])
    ensures CommittedBatch(stmts + [Commit])
  {
    var acts := stmts + [Commit];
    assert forall i :: 0 <= i < |stmts| ==> acts[i] == stmts[i];
  }

  /** A leading statement, further statements, then one commit form a
      committed batch when every statement is well formed. */
  lemma LeadThenCommit(lead: Action, rest: seq<Action>)
    requires lead.Statement? && WellFormed(lead)
    requires forall i :: 0 <= i < |rest| ==> rest[i].Statement? && WellFormed(rest[i])
    ensures CommittedBatch([lead] + rest + [Commit])
  {
    var stmts := [lead] + rest;
    assert forall i :: 1 <= i < |stmts| ==> stmts[i] == rest[i - 1];
    StatementsThenCommit(stmts);
  }

  /** Python's `sep.join(parts)`. */
  function Join(sep: string, parts: seq<string>): (r: string)
    ensures |parts| > 0 ==> |parts[0]| <= |r| && r[..|parts[0]|] == parts[0]
  {
    if |parts| == 0 then ""
    else if |parts| == 1 then parts[0]
    else parts[0] + sep + Join(sep, parts[1..])
  }

  /** SQL text with one `%s` placeholder between consecutive literal pieces. */
  function Template(pieces: seq<string>): string
  {
    Join(Slot, pieces)
  }

  /** `n` blanks: the indentation inside the source's triple-quoted SQL. */
  function Spaces(n: nat): (r: string)
    ensures |r| == n && '%' !in r
  {
    seq(n, _ => ' ')
  }

  /** `t` occurs in `s` as a contiguous substring. */
  ghost predicate Contains(s: string, t: string)
  {
    exists i, j :: 0 <= i <= j <= |s| && j - i == |t| && s[i..j] == t
  }

  lemma {:induction false} PlaceholdersAppend(a: string, b: string)
    requires EndsClean(a)
    ensures Placeholders(a + b) == Placeholders(a) + Placeholders(b)
    decreases |a|
  {
    if |a| == 0 {
      assert a + b == b;
    } else if |a| == 1 {
      if |b| > 0 {
        assert (a + b)[1..] == b;
      }
    } else if a[0] == '%' && a[1] == 's' {
      assert (a + b)[2..] == a[2..] + b;
      PlaceholdersAppend(a[2..], b);
    } else {
      assert (a + b)[1..] == a[1..] + b;
      PlaceholdersAppend(a[1..], b);
    }
  }

  lemma EndsCleanAppend(a: string, b: string)
    requires EndsClean(a) && EndsClean(b)
    ensures EndsClean(a + b)
  {
    if b != [] {
      assert (a + b)[|a + b| - 1] == b[|b| - 1];
    }
  }

  /** Joining parts that each hold one marker with a separator that holds
      none gives one marker per part. */
  lemma {:induction false} PlaceholdersJoin(sep: string, parts: seq<string>)
    requires EndsClean(sep) && Placeholders(sep) == 0
    requires forall i :: 0 <= i < |parts| ==> EndsClean(parts[i]) && Placeholders(parts[i]) == 1
    ensures Placeholders(Join(sep, parts)) == |parts|
    ensures EndsClean(Join(sep, parts))
  {
    if |parts| > 1 {
      PlaceholdersJoin(sep, parts[1..]);
      EndsCleanAppend(parts[0], sep);
      PlaceholdersAppend(parts[0], sep);
      PlaceholdersAppend(parts[0] + sep, Join(sep, parts[1..]));
      EndsCleanAppend(parts[0] + sep, Join(sep, parts[1..]));
    }
  }

  /** A template over pieces free of `%` has one marker fewer than pieces. */
  lemma {:induction false} PlaceholdersTemplate(pieces: seq<string>)
    requires |pieces| >= 1
    requires forall i :: 0 <= i < |pieces| ==> '%' !in pieces[i] && EndsClean(pieces[i])
    ensures Placeholders(Template(pieces)) == |pieces| - 1
    ensures EndsClean(Template(pieces))
  {
    if |pieces| > 1 {
      PlaceholdersTemplate(pieces[1..]);
      var head := pieces[0] + Slot;
      assert Template(pieces) == head + Template(pieces[1..]);
      PlaceholdersAppend(pieces[0], Slot);
      assert Placeholders(Slot) == 1 by {
        assert Slot[2..] == [];
      }
      PlaceholdersAppend(head, Template(pieces[1..]));
      EndsCleanAppend(head, Template(pieces[1..]));
    }
  }

  /** A string without the character `c` contains no string that has it. */
  lemma ContainsNeedsChar(s: string, t: string, c: char)
    requires c in t && c !in s
    ensures !Contains(s, t)
  {
    var j :| 0 <= j < |t| && t[j] == c;
    forall i, k | 0 <= i <= k <= |s| && k - i == |t|
      ensures s[i..k] != t
    {
      assert s[i..k][j] == s[i + j];
    }
  }

  lemma ContainsAt(a: string, t: string, b: string)
    ensures Contains(a + t + b, t)
  {
    var s := a + t + b;
    assert s[|a|..|a| + |t|] == t;
  }
}
