/**
 * The schema import of farmapp/setup-db.js: the SQL script is cut into
 * statements (newline normalisation, `split(';')`, trim, and dropping empty
 * and comment chunks), and the statements are sent one by one over a
 * connection whose answers are a parameter, carrying on after a failure.
 */
module SetupDb {
  import opened Text
  import opened Seqs

  /** `sql.replace(/\r\n/g, '\n')`. */
  function NormalizeNewlines(s: string): (r: string)
    ensures |r| <= |s|
    ensures '\r' !in s ==> r == s
    decreases |s|
  {
    if |s| >= 2 && s[0] == '\r' && s[1] == '\n' then "\n" + NormalizeNewlines(s[2..])
    else if s == [] then []
    else [s[0]] + NormalizeNewlines(s[1..])
  }

  predicate NotCr(c: char) {
    c != '\r'
  }

  /** Only the `\r` of each `\r\n` pair is dropped: every other character stays, in order. */
  lemma {:induction false} NormalizeKeepsOtherChars(s: string)
    ensures Retain(NormalizeNewlines(s), NotCr) == Retain(s, NotCr)
    decreases |s|
  {
    if |s| >= 2 && s[0] == '\r' && s[1] == '\n' {
      NormalizeKeepsOtherChars(s[2..]);
      var n := NormalizeNewlines(s[2..]);
      assert s[1..][1..] == s[2..];
      assert Retain(s, NotCr) == Retain(s[1..], NotCr) == [s[1]] + Retain(s[2..], NotCr);
      assert ("\n" + n)[1..] == n;
    } else if s != [] {
      NormalizeKeepsOtherChars(s[1..]);
      var n := NormalizeNewlines(s[1..]);
      assert ([s[0]] + n)[1..] == n;
    }
  }

  /** `.map(query => query.trim())`. */
  function TrimAll(chunks: seq<string>): (r: seq<string>)
    ensures |r| == |chunks|
    ensures forall i :: 0 <= i < |r| ==> r[i] == Trim(chunks[i])
  {
    if chunks == [] then [] else [Trim(chunks[0])] + TrimAll(chunks[1..])
  }

  /** The filter: not empty, and opening with neither a block-comment marker nor `--`. */
  predicate IsStatement(q: string) {
    |q| > 0 && !IsPrefix("/*", q) && !IsPrefix("--", q)
  }

  /** The `queries` of the script, in the order they appear. */
  function Statements(sql: string): seq<string> {
    Retain(TrimAll(Split(NormalizeNewlines(sql), ';')), IsStatement)
  }

  /** A trimmed slice of a chunk has no `;` when the chunk has none. */
  lemma TrimmedSliceHasNoSemicolon(chunk: string)
    requires ';' !in chunk
    ensures ';' !in Trim(chunk)
  {
    var a, b :| 0 <= a <= b <= |chunk| && Trim(chunk) == chunk[a..b];
    forall i | 0 <= i < b - a ensures chunk[a..b][i] != ';' {
      assert chunk[a..b][i] == chunk[a + i];
    }
  }

  /**
   * Every statement is free of `;`, has no white space at either end, is not
   * empty, and does not open with a comment marker.
   */
  lemma StatementsWellFormed(sql: string)
    ensures forall i :: 0 <= i < |Statements(sql)| ==>
              var q := Statements(sql)[i];
              && ';' !in q && q != []
              && !IsJsSpace(q[0]) && !IsJsSpace(q[|q| - 1])
              && !IsPrefix("/*", q) && !IsPrefix("--", q)
  {
    var qs := Statements(sql);
    forall i | 0 <= i < |qs|
      ensures ';' !in qs[i] && qs[i] != [] && !IsJsSpace(qs[i][0]) && !IsJsSpace(qs[i][|qs[i]| - 1])
      ensures !IsPrefix("/*", qs[i]) && !IsPrefix("--", qs[i])
    {
      StatementWellFormed(sql, i);
    }
  }

  lemma StatementWellFormed(sql: string, i: nat)
    requires i < |Statements(sql)|
    ensures var q := Statements(sql)[i];
            && ';' !in q && q != [] && !IsJsSpace(q[0]) && !IsJsSpace(q[|q| - 1])
            && !IsPrefix("/*", q) && !IsPrefix("--", q)
  {
    var chunks := Split(NormalizeNewlines(sql), ';');
    var trimmed := TrimAll(chunks);
    var k := KeptFrom(trimmed, IsStatement, i);
    TrimmedStatement(chunks[k]);
  }

  /** A chunk free of `;` whose trimmed form passes the filter gives a well-formed statement. */
  lemma TrimmedStatement(chunk: string)
    requires ';' !in chunk && IsStatement(Trim(chunk))
    ensures var q := Trim(chunk);
            && ';' !in q && q != [] && !IsJsSpace(q[0]) && !IsJsSpace(q[|q| - 1])
            && !IsPrefix("/*", q) && !IsPrefix("--", q)
  {
    TrimmedSliceHasNoSemicolon(chunk);
  }

  /** The statements keep the order of the chunks they come from. */
  lemma StatementsInOrder(sql: string)
    ensures IsSubsequence(Statements(sql), TrimAll(Split(NormalizeNewlines(sql), ';')))
  {
    RetainSubsequence(TrimAll(Split(NormalizeNewlines(sql), ';')), IsStatement);
  }

  /** A trimmed chunk is kept exactly when it passes the filter. */
  lemma StatementsExact(sql: string, chunk: string)
    requires chunk in TrimAll(Split(NormalizeNewlines(sql), ';'))
    ensures chunk in Statements(sql) <==> IsStatement(chunk)
  {
    RetainMembers(TrimAll(Split(NormalizeNewlines(sql), ';')), IsStatement, chunk);
  }

  /** The logged excerpt: the first hundred characters, with `...` when there are more. */
  function Excerpt(q: string): (e: string)
    ensures |q| <= 100 ==> e == q
    ensures |q| > 100 ==> |e| == 103 && IsPrefix(e[..100], q) && e[100..] == "..."
  {
    if |q| > 100 then q[..100] + "..." else q
  }

  /**
   * The database connection as the import sees it: the statements it has
   * been sent, and whether it accepts a statement after a given history.
   */
  class Connection {
    var sent: seq<string>
    const accepts: (seq<string>, string) -> bool

    constructor (accepts: (seq<string>, string) -> bool)
      ensures sent == [] && this.accepts == accepts
    {
      sent := [];
      this.accepts := accepts;
    }

    /** `connection.query(q)`: the statement is sent, and it succeeds or throws. */
    method Query(q: string) returns (ok: bool)
      modifies this
      ensures sent == old(sent) + [q]
      ensures ok == accepts(old(sent), q)
    {
      ok := accepts(sent, q);
      sent := sent + [q];
    }
  }

  predicate NonEmpty(q: string) {
    q != []
  }

  /** The excerpts logged for a run of `queries` sent after `history`, an entry per failing statement. */
  function Failures(accepts: (seq<string>, string) -> bool, history: seq<string>, queries: seq<string>)
    : (log: seq<string>)
    ensures |log| <= |queries|
    decreases |queries|
  {
    if queries == [] then []
    else if queries[0] == [] then Failures(accepts, history, queries[1..])
    else
      (if accepts(history, queries[0]) then [] else [Excerpt(queries[0])]) +
      Failures(accepts, history + [queries[0]], queries[1..])
  }

  /**
   * The `for` loop: every non-empty statement is sent exactly once, in
   * order, and a failure is logged and does not stop the ones after it.
   */
  method RunAll(conn: Connection, queries: seq<string>) returns (log: seq<string>)
    modifies conn
    ensures conn.sent == old(conn.sent) + Retain(queries, NonEmpty)
    ensures log == Failures(conn.accepts, old(conn.sent), queries)
  {
    log := [];
    ghost var start := conn.sent;
    var i := 0;
    while i < |queries|
      invariant 0 <= i <= |queries|
      invariant conn.sent + Retain(queries[i..], NonEmpty) == start + Retain(queries, NonEmpty)
      invariant Failures(conn.accepts, start, queries) == log + Failures(conn.accepts, conn.sent, queries[i..])
    {
      var q := queries[i];
      ghost var sent0 := conn.sent;
      ghost var log0 := log;
      var entry := RunOne(conn, q);
      log := log + entry;
      SentStep(start, queries, i, sent0);
      LogStep(conn.accepts, start, queries, i, sent0, log0, entry);
      i := i + 1;
    }
  }

  /**
   * One pass of the loop body: a non-empty statement is sent, and its
   * excerpt is logged when it fails.
   */
  method RunOne(conn: Connection, q: string) returns (entry: seq<string>)
    modifies conn
    ensures conn.sent == if q == [] then old(conn.sent) else old(conn.sent) + [q]
    ensures entry == if q == [] || conn.accepts(old(conn.sent), q) then [] else [Excerpt(q)]
  {
    entry := [];
    if q != [] {
      var ok := conn.Query(q);
      if !ok {
        entry := [Excerpt(q)];
      }
    }
  }

  /** The sent-statements invariant survives one pass of the loop body. */
  lemma SentStep(start: seq<string>, queries: seq<string>, i: nat, sent0: seq<string>)
    requires i < |queries|
    requires sent0 + Retain(queries[i..], NonEmpty) == start + Retain(queries, NonEmpty)
    ensures var sent := if queries[i] == [] then sent0 else sent0 + [queries[i]];
            sent + Retain(queries[i + 1..], NonEmpty) == start + Retain(queries, NonEmpty)
  {
    var q := queries[i];
    var step := if q != [] then [q] else [];
    RetainStep(queries, i);
    Assoc(sent0, step, Retain(queries[i + 1..], NonEmpty));
  }

  /** The log invariant survives one pass of the loop body. */
  lemma LogStep(accepts: (seq<string>, string) -> bool, start: seq<string>, queries: seq<string>, i: nat,
                sent0: seq<string>, log0: seq<string>, entry: seq<string>)
    requires i < |queries|
    requires Failures(accepts, start, queries) == log0 + Failures(accepts, sent0, queries[i..])
    requires entry == if queries[i] == [] || accepts(sent0, queries[i]) then [] else [Excerpt(queries[i])]
    ensures var sent := if queries[i] == [] then sent0 else sent0 + [queries[i]];
            Failures(accepts, start, queries) == log0 + entry + Failures(accepts, sent, queries[i + 1..])
  {
    var sent := if queries[i] == [] then sent0 else sent0 + [queries[i]];
    FailuresStep(accepts, sent0, queries[i..]);
    assert queries[i..][0] == queries[i] && queries[i..][1..] == queries[i + 1..];
    Assoc(log0, entry, Failures(accepts, sent, queries[i + 1..]));
  }

  /** The non-empty statements from position `i` on: the one at `i` when it is not empty, then the rest. */
  lemma RetainStep(queries: seq<string>, i: nat)
    requires i < |queries|
    ensures Retain(queries[i..], NonEmpty) ==
            (if queries[i] != [] then [queries[i]] else []) + Retain(queries[i + 1..], NonEmpty)
  {
    assert queries[i..][1..] == queries[i + 1..];
  }

  lemma Assoc<T>(a: seq<T>, b: seq<T>, c: seq<T>)
    ensures a + b + c == a + (b + c)
  {
  }

  /** One statement of the run: logged when it is sent and refused, then the rest after it. */
  lemma FailuresStep(accepts: (seq<string>, string) -> bool, history: seq<string>, queries: seq<string>)
    requires queries != []
    ensures var q := queries[0];
            Failures(accepts, history, queries) ==
              if q == [] then Failures(accepts, history, queries[1..])
              else (if accepts(history, q) then [] else [Excerpt(q)]) + Failures(accepts, history + [q], queries[1..])
  {
  }

  /** When the connection accepts everything, nothing is logged. */
  lemma {:induction false} NoFailureNoLog(accepts: (seq<string>, string) -> bool, history: seq<string>, queries: seq<string>)
    requires forall h, q :: accepts(h, q)
    ensures Failures(accepts, history, queries) == []
    decreases |queries|
  {
    if queries != [] {
      NoFailureNoLog(accepts, history + [queries[0]], queries[1..]);
      NoFailureNoLog(accepts, history, queries[1..]);
    }
  }

  const ChecksOff: string := "SET FOREIGN_KEY_CHECKS = 0"
  const ChecksOn: string := "SET FOREIGN_KEY_CHECKS = 1"

  /**
   * The import once connected to the database: foreign key checks off, every
   * statement of the script, checks back on. A failure of either `SET` ends
   * the run with exit code 1; failing statements only add to the log.
   */
  method Import(conn: Connection, sql: string) returns (code: int, log: seq<string>)
    modifies conn
    ensures var before := old(conn.sent) + [ChecksOff];
            if conn.accepts(old(conn.sent), ChecksOff) then
              var after := before + Retain(Statements(sql), NonEmpty);
              && conn.sent == after + [ChecksOn]
              && log == Failures(conn.accepts, before, Statements(sql))
              && code == (if conn.accepts(after, ChecksOn) then 0 else 1)
            else
              conn.sent == before && log == [] && code == 1
  {
    var ok := conn.Query(ChecksOff);
    if !ok {
      return 1, [];
    }
    log := RunAll(conn, Statements(sql));
    ok := conn.Query(ChecksOn);
    code := if ok then 0 else 1;
  }

  /** Every statement of the script is a non-empty one, so the import sends all of them. */
  lemma StatementsAllSent(sql: string)
    ensures Retain(Statements(sql), NonEmpty) == Statements(sql)
  {
    var qs := Statements(sql);
    forall i | 0 <= i < |qs| ensures NonEmpty(qs[i]) {
      assert IsStatement(qs[i]);
    }
    RetainAll(qs, NonEmpty);
  }
}
