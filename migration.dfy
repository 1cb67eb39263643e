/** The schema-migration script: SQL statement splitting and the execution loop (scripts/apply-migration.ts). */
module Migration {
  import opened Wrappers
  import Text

  /** `s.split(';')`: the pieces between the semicolons, in order; a string without one is a single piece. */
  function Split(s: string): (parts: seq<string>)
    ensures |parts| >= 1
    ensures forall i :: 0 <= i < |parts| ==> ';' !in parts[i]
    decreases |s|
  {
    if s == [] then [""]
    else
      var rest := Split(s[1..]);
      if s[0] == ';' then [""] + rest
      else
        var parts := [[s[0]] + rest[0]] + rest[1..];
        assert forall i :: 1 <= i < |parts| ==> parts[i] == rest[i];
        parts
  }

  /** `parts.join(';')`. */
  function Join(parts: seq<string>): string
    requires |parts| >= 1
  {
    if |parts| == 1 then parts[0] else parts[0] + ";" + Join(parts[1..])
  }

  /** Joining the pieces with semicolons gives the text back: splitting loses nothing. */
  lemma {:induction false} JoinSplit(s: string)
    ensures Join(Split(s)) == s
    decreases |s|
  {
    if s != [] {
      var rest := Split(s[1..]);
      JoinSplit(s[1..]);
      if s[0] == ';' {
        assert ([""] + rest)[1..] == rest;
      } else {
        var parts := [[s[0]] + rest[0]] + rest[1..];
        assert parts[1..] == rest[1..];
        if |rest| > 1 {
          assert Join(rest) == rest[0] + ";" + Join(rest[1..]);
        }
        assert s == [s[0]] + s[1..];
      }
    }
  }

  /** Splitting a join of semicolon-free pieces gives the pieces back. */
  lemma {:induction false} SplitJoin(parts: seq<string>)
    requires |parts| >= 1
    requires forall i :: 0 <= i < |parts| ==> ';' !in parts[i]
    ensures Split(Join(parts)) == parts
    decreases |Join(parts)|
  {
    var p := parts[0];
    if p == [] {
      if |parts| > 1 {
        SplitJoin(parts[1..]);
        assert Join(parts) == ";" + Join(parts[1..]);
        assert Join(parts)[1..] == Join(parts[1..]);
      }
    } else {
      var tail := [p[1..]] + parts[1..];
      assert forall i :: 0 <= i < |tail| ==> ';' !in tail[i] by {
        forall i | 0 <= i < |tail| ensures ';' !in tail[i] {
          if i == 0 { assert forall c :: c in p[1..] ==> c in p; } else { assert tail[i] == parts[i]; }
        }
      }
      assert tail[1..] == parts[1..];
      assert Join(parts) == [p[0]] + Join(tail) by {
        assert p == [p[0]] + p[1..];
        if |parts| > 1 {
          assert Join(tail) == p[1..] + ";" + Join(parts[1..]);
        }
      }
      assert |Join(tail)| < |Join(parts)|;
      SplitJoin(tail);
      assert Join(parts)[1..] == Join(tail);
      assert p[0] != ';';
      assert [p[0]] + p[1..] == p;
      assert [p] + parts[1..] == parts;
    }
  }

  /** A string without a semicolon is one piece. */
  lemma SplitWithoutSeparator(s: string)
    requires ';' !in s
    ensures Split(s) == [s]
  {
    SplitJoin([s]);
  }

  /** `s.startsWith(a + b)` for a two-character prefix. */
  predicate StartsWith2(s: string, a: char, b: char)
  {
    |s| >= 2 && s[0] == a && s[1] == b
  }

  /** `s.startsWith` the block-comment opener, a slash and a star. */
  predicate OpensBlockComment(s: string)
  {
    StartsWith2(s, '/', '*')
  }

  /** `s.startsWith` the line-comment opener, two hyphens. */
  predicate OpensLineComment(s: string)
  {
    StartsWith2(s, '-', '-')
  }

  /** The filter: a non-empty piece that does not open with a block or line comment. */
  predicate Keep(t: string)
  {
    |t| > 0 && !OpensBlockComment(t) && !OpensLineComment(t)
  }

  /** `.map(s => s.trim()).filter(Keep)` over the pieces, in order. */
  function Pipeline(parts: seq<string>): seq<string>
  {
    if parts == [] then []
    else
      Contribution(parts[0]) + Pipeline(parts[1..])
  }

  /** The statements the script executes. */
  function Statements(sql: string): seq<string>
  {
    Pipeline(Split(sql))
  }

  /** What every statement produced is: kept by the filter, trimmed, and free of semicolons. */
  predicate Executable(t: string)
  {
    Keep(t) && Text.Trim(t) == t && ';' !in t
  }

  /** Every statement of semicolon-free pieces is executable. */
  lemma {:induction false} PipelineExecutable(parts: seq<string>)
    requires forall i :: 0 <= i < |parts| ==> ';' !in parts[i]
    ensures forall j :: 0 <= j < |Pipeline(parts)| ==> Executable(Pipeline(parts)[j])
  {
    if parts != [] {
      var t := Text.Trim(parts[0]);
      Text.TrimIdempotent(parts[0]);
      if ';' in t {
        Text.TrimKeepsCharacters(parts[0], ';');
      }
      assert forall i :: 0 <= i < |parts[1..]| ==> ';' !in parts[1..][i] by {
        forall i | 0 <= i < |parts[1..]| ensures ';' !in parts[1..][i] { assert parts[1..][i] == parts[i + 1]; }
      }
      PipelineExecutable(parts[1..]);
    }
  }

  /** No statement is empty, untrimmed, comment-led or holds a semicolon. */
  lemma StatementsExecutable(sql: string)
    ensures forall j :: 0 <= j < |Statements(sql)| ==> Executable(Statements(sql)[j])
  {
    PipelineExecutable(Split(sql));
  }

  /** The pipeline works piece by piece, so the statements keep the order of the text. */
  lemma {:induction false} PipelineAppend(a: seq<string>, b: seq<string>)
    ensures Pipeline(a + b) == Pipeline(a) + Pipeline(b)
  {
    if a == [] {
      assert a + b == b;
    } else {
      assert (a + b)[0] == a[0];
      assert (a + b)[1..] == a[1..] + b;
      PipelineAppend(a[1..], b);

    }
  }

  /** What one piece contributes to the statements. */
  function Contribution(p: string): seq<string>
  {
    var t := Text.Trim(p);
    if Keep(t) then [t] else []
  }

  /** A single piece yields its contribution. */
  lemma PipelineSingle(p: string)
    ensures Pipeline([p]) == Contribution(p)
  {
    assert [p][1..] == [];
  }

  /** Each piece contributes its trimmed text exactly when the filter keeps it, at its own place in the order. */
  lemma {:induction false} PieceContributes(parts: seq<string>, i: int)
    requires 0 <= i < |parts|
    ensures Pipeline(parts) == Pipeline(parts[..i]) + Contribution(parts[i]) + Pipeline(parts[i + 1..])
  {
    if i == 0 {
      assert parts[..0] == [];
    } else {
      var tail := parts[1..];
      PieceContributes(tail, i - 1);
      assert tail[..i - 1] == parts[..i][1..];
      assert tail[i - 1] == parts[i] && tail[i..] == parts[i + 1..];
      assert parts[..i][0] == parts[0];
    }
  }

  /** A piece led by a comment is dropped whole, even when SQL follows the comment. */
  lemma CommentLedPieceDropped(sql: string)
    requires ';' !in sql
    requires OpensLineComment(Text.Trim(sql)) || OpensBlockComment(Text.Trim(sql))
    ensures Statements(sql) == []
  {
    SplitWithoutSeparator(sql);
    assert [sql][1..] == [];
    assert !Keep(Text.Trim(sql));
    assert Pipeline([sql]) == [] + Pipeline([]);
  }

  /** What the `exec_sql` call gives back: a reply that may carry an error, or an exception. */
  datatype RpcResult = Replied(error: Option<Fault>) | RpcThrew(fault: Fault)

  /** A line of the script's console output. */
  datatype LogEntry = Applying | StatementFailed(error: Fault) | CallFailed(error: Fault) | Completed

  /** What the loop logs for one query. */
  function EntriesFor(r: RpcResult): seq<LogEntry>
  {
    match r
    case Replied(error) => if error.Some? then [StatementFailed(error.value)] else []
    case RpcThrew(fault) => [CallFailed(fault)]
  }

  /** The errors logged for the queries sent, in the order they were sent. */
  function ErrorLog(queries: seq<string>, exec: string -> RpcResult): seq<LogEntry>
  {
    if queries == [] then []
    else ErrorLog(queries[..|queries| - 1], exec) + EntriesFor(exec(queries[|queries| - 1]))
  }

  /**
   * The loop of `applyMigration`: every statement is sent exactly once, in order, with its
   * semicolon put back; each failure, returned or thrown, is logged and the loop goes on.
   */
  method ExecuteAll(statements: seq<string>, exec: string -> RpcResult) returns (sent: seq<string>, errors: seq<LogEntry>)
    ensures |sent| == |statements|
    ensures forall i :: 0 <= i < |sent| ==> sent[i] == statements[i] + ";"
    ensures errors == ErrorLog(sent, exec)
  {
    sent := [];
    errors := [];
    for i := 0 to |statements|
      invariant |sent| == i
      invariant forall j :: 0 <= j < i ==> sent[j] == statements[j] + ";"
      invariant errors == ErrorLog(sent, exec)
    {
      var query := statements[i] + ";";
      var result := exec(query);
      assert (sent + [query])[..|sent|] == sent;
      sent := sent + [query];
      errors := errors + EntriesFor(result);
    }
  }

  /** `applyMigration` on the migration file's text: the statements of the text, run by the loop, between the two progress lines. */
  method ApplyMigration(sql: string, exec: string -> RpcResult) returns (sent: seq<string>, log: seq<LogEntry>)
    ensures |sent| == |Statements(sql)|
    ensures forall i :: 0 <= i < |sent| ==> sent[i] == Statements(sql)[i] + ";"
    ensures log == [Applying] + ErrorLog(sent, exec) + [Completed]
  {
    var statements := Statements(sql);
    var errors;
    sent, errors := ExecuteAll(statements, exec);
    log := [Applying] + errors + [Completed];
  }

  /** Every query sent ends in exactly one semicolon: the statement itself holds none. */
  lemma SentQueriesHoldOneSemicolon(sql: string, i: int)
    requires 0 <= i < |Statements(sql)|
    ensures var q := Statements(sql)[i] + ";"; ';' !in q[..|q| - 1] && q[|q| - 1] == ';'
  {
    StatementsExecutable(sql);
    var q := Statements(sql)[i] + ";";
    assert q[..|q| - 1] == Statements(sql)[i];
  }
}
