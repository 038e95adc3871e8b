/** How the start-up schema is cut into statements and applied
    (internal/db/postgres.go, splitSQLStatements and InitSchema). The cut is at
    every semicolon: nothing of the text but blanks and semicolons is lost, and it
    is stable exactly on lists of trimmed statements without semicolons. */
module Schema {

  /** unicode.IsSpace. */
  predicate IsSpace(c: char) {
    || '\U{9}' <= c <= '\U{D}' || c == ' ' || c == '\U{85}' || c == '\U{A0}' || c == '\U{1680}'
    || '\U{2000}' <= c <= '\U{200A}' || c == '\U{2028}' || c == '\U{2029}' || c == '\U{202F}'
    || c == '\U{205F}' || c == '\U{3000}'
  }

  function TrimLeft(s: string): string {
    if s != "" && IsSpace(s[0]) then TrimLeft(s[1..]) else s
  }

  function TrimRight(s: string): string {
    if s != "" && IsSpace(s[|s| - 1]) then TrimRight(s[..|s| - 1]) else s
  }

  /** strings.TrimSpace. */
  function TrimSpace(s: string): string { TrimRight(TrimLeft(s)) }

  /** strings.Split at semicolons. */
  function Pieces(sql: string): (r: seq<string>)
    ensures |r| >= 1
  {
    if sql == "" then [""]
    else
      var rest := Pieces(sql[1..]);
      if sql[0] == ';' then [""] + rest else [[sql[0]] + rest[0]] + rest[1..]
  }

  function Kept(parts: seq<string>): seq<string> {
    if parts == [] then []
    else
      var n := |parts| - 1;
      Kept(parts[..n]) + (if TrimSpace(parts[n]) == "" then [] else [TrimSpace(parts[n])])
  }

  function Statements(sql: string): seq<string> { Kept(Pieces(sql)) }

  /** A statement that the cut can yield. */
  predicate Clean(s: string) {
    s != "" && ';' !in s && !IsSpace(s[0]) && !IsSpace(s[|s| - 1])
  }

  predicate AllClean(ss: seq<string>) { forall i :: 0 <= i < |ss| ==> Clean(ss[i]) }

  method SplitSqlStatements(sql: string) returns (statements: seq<string>)
    ensures statements == Statements(sql) && AllClean(statements)
    ensures Bare(Concat(statements)) == Bare(sql)
  {
    var parts := Pieces(sql);
    statements := [];
    for i := 0 to |parts|
      invariant statements == Kept(parts[..i])
    {
      assert parts[..i + 1][..i] == parts[..i];
      var stmt := TrimSpace(parts[i]);
      if stmt == "" { continue; }
      statements := statements + [stmt];
    }
    assert parts[..|parts|] == parts;
    StatementsAreClean(sql);
    NothingIsLost(sql);
  }

  /** Which statements of a schema run the server accepts; all it says nothing of. */
  predicate Accepts(accepts: seq<bool>, i: nat) { i < |accepts| ==> accepts[i] }

  /** The server as InitSchema sees it: it executes one statement after the other
      and may refuse any of them. */
  class Server {
    var executed: seq<string>

    method Exec(stmt: string, ok: bool)
      modifies this
      ensures executed == if ok then old(executed) + [stmt] else old(executed)
    {
      if ok { executed := executed + [stmt]; }
    }

    /** InitSchema executes a prefix of the statements, all of them if it succeeds,
        and otherwise those before the first one that is refused. */
    method InitSchema(sql: string, accepts: seq<bool>) returns (ok: bool, ghost done: nat)
      modifies this
      ensures done <= |Statements(sql)| && executed == old(executed) + Statements(sql)[..done]
      ensures forall i :: 0 <= i < done ==> Accepts(accepts, i)
      ensures if ok then done == |Statements(sql)| else done < |Statements(sql)| && !Accepts(accepts, done)
    {
      var statements := SplitSqlStatements(sql);
      hide Statements, AllClean, Bare, Concat;
      done := 0;
      for n := 0 to |statements|
        invariant done == n && executed == old(executed) + statements[..n]
        invariant forall i :: 0 <= i < n ==> Accepts(accepts, i)
      {
        Exec(statements[n], Accepts(accepts, n));
        if !Accepts(accepts, n) { return false, done; }
        assert statements[..n + 1] == statements[..n] + [statements[n]];
        done := n + 1;
      }
      ok := true;
    }
  }

  // ----- Statements are clean -----

  lemma {:induction false} TrimLeftMeans(s: string)
    ensures var t := TrimLeft(s);
            (t != "" ==> !IsSpace(t[0])) && (forall c :: c in t ==> c in s) && Bare(t) == Bare(s)
  {
    if s == "" || !IsSpace(s[0]) {
    } else {
      TrimLeftMeans(s[1..]);
      assert s == [s[0]] + s[1..];
    }
  }

  lemma {:induction false} TrimRightMeans(s: string)
    requires s != "" ==> !IsSpace(s[0])
    ensures var t := TrimRight(s);
            (t != "" ==> !IsSpace(t[0]) && !IsSpace(t[|t| - 1])) && (forall c :: c in t ==> c in s) &&
                Bare(t) == Bare(s)
  {
    if s == "" || !IsSpace(s[|s| - 1]) {
    } else {
      var n := |s| - 1;
      TrimRightMeans(s[..n]);
      assert s == s[..n] + [s[n]];
      BareConcat(s[..n], [s[n]]);
      assert Bare([s[n]]) == "";
    }
  }

  /** Trimming takes blanks only, from the two ends only as far as it must. */
  lemma TrimMeans(s: string)
    ensures var t := TrimSpace(s);
            (t != "" ==> !IsSpace(t[0]) && !IsSpace(t[|t| - 1])) && (forall c :: c in t ==> c in s) &&
                Bare(t) == Bare(s)
  {
    TrimLeftMeans(s);
    TrimRightMeans(TrimLeft(s));
  }

  lemma {:induction false} PiecesHaveNoSemicolon(sql: string)
    ensures forall i :: 0 <= i < |Pieces(sql)| ==> ';' !in Pieces(sql)[i]
  {
    if sql == "" {
    } else {
      PiecesHaveNoSemicolon(sql[1..]);
    }
  }

  lemma {:induction false} KeptAreClean(parts: seq<string>)
    requires forall i :: 0 <= i < |parts| ==> ';' !in parts[i]
    ensures AllClean(Kept(parts))
  {
    if parts == [] {
    } else {
      var n := |parts| - 1;
      KeptAreClean(parts[..n]);
      TrimMeans(parts[n]);
    }
  }

  lemma StatementsAreClean(sql: string)
    ensures AllClean(Statements(sql))
  {
    PiecesHaveNoSemicolon(sql);
    KeptAreClean(Pieces(sql));
  }

  // ----- Cutting what was joined -----

  function Join(ss: seq<string>): string {
    if ss == [] then "" else if |ss| == 1 then ss[0] else ss[0] + ";" + Join(ss[1..])
  }

  lemma {:induction false} PiecesOfJoined(s: string, rest: string)
    requires ';' !in s
    ensures Pieces(s) == [s] && Pieces(s + ";" + rest) == [s] + Pieces(rest)
  {
    if s == "" {
      assert (s + ";" + rest)[1..] == rest;
    } else {
      PiecesOfJoined(s[1..], rest);
      assert (s + ";" + rest)[1..] == s[1..] + ";" + rest;
      assert [s[0]] + s[1..] == s;
    }
  }

  lemma {:induction false} PiecesOfJoin(ss: seq<string>)
    requires ss != [] && AllClean(ss)
    ensures Pieces(Join(ss)) == ss
  {
    if |ss| == 1 {
      PiecesOfJoined(ss[0], "");
    } else {
      PiecesOfJoin(ss[1..]);
      PiecesOfJoined(ss[0], Join(ss[1..]));
      assert ss == [ss[0]] + ss[1..];
    }
  }

  lemma CleanIsTrimmed(s: string)
    requires Clean(s)
    ensures s != "" && TrimSpace(s) == s
  {
  }

  lemma {:induction false} KeptAll(ss: seq<string>)
    requires AllClean(ss)
    ensures Kept(ss) == ss
  {
    if ss == [] {
    } else {
      var n := |ss| - 1;
      assert ss == ss[..n] + [ss[n]] && Clean(ss[n]);
      hide Clean, TrimSpace, IsSpace;
      KeptAll(ss[..n]);
      CleanIsTrimmed(ss[n]);
    }
  }

  /** Joining statements with semicolons and cutting again gives the statements back
      exactly when each is non-empty, trimmed and free of semicolons: a semicolon in
      a literal or a comment is the case that the schema must avoid. */
  lemma JoinThenSplit(ss: seq<string>)
    ensures Statements(Join(ss)) == ss <==> AllClean(ss)
  {
    StatementsAreClean(Join(ss));
    if AllClean(ss) {
      KeptAll(ss);
      if ss == [] {
        assert Pieces("") == [""] && Kept([""]) == [] by { assert [""][..0] == []; }
      } else {
        PiecesOfJoin(ss);
      }
    }
  }

  // ----- Nothing is lost -----

  function Concat(ss: seq<string>): string {
    if ss == [] then "" else Concat(ss[..|ss| - 1]) + ss[|ss| - 1]
  }

  function BareChar(c: char): string { if IsSpace(c) || c == ';' then "" else [c] }

  /** The text without blanks and semicolons. */
  function Bare(s: string): string { if s == "" then "" else BareChar(s[0]) + Bare(s[1..]) }

  lemma BareStep(s: string)
    requires s != ""
    ensures Bare(s) == BareChar(s[0]) + Bare(s[1..])
  {
  }

  lemma Associates(x: string, y: string, z: string)
    ensures x + (y + z) == (x + y) + z
  {
  }

  lemma {:induction false} BareConcat(a: string, b: string)
    ensures Bare(a + b) == Bare(a) + Bare(b)
  {
    if a == "" {
      assert a + b == b && Bare(a) == "";
      hide Bare;
    } else {
      hide Bare, BareChar;
      BareConcat(a[1..], b);
      assert (a + b)[1..] == a[1..] + b;
      BareStep(a);
      BareStep(a + b);
      Associates(BareChar(a[0]), Bare(a[1..]), Bare(b));
    }
  }

  lemma {:induction false} ConcatFront(s: string, ss: seq<string>)
    ensures Concat([s] + ss) == s + Concat(ss)
  {
    if ss == [] {
      assert [s] + ss == [s] && [s][..0] == [];
    } else {
      var n := |ss| - 1;
      ConcatFront(s, ss[..n]);
      assert ([s] + ss)[..n + 1] == [s] + ss[..n] && ([s] + ss)[n + 1] == ss[n];
      var front, last := Concat(ss[..n]), ss[n];
      assert Concat([s] + ss) == (s + front) + last;
      hide Concat;
      assert (s + front) + last == s + (front + last);
    }
  }

  lemma FirstGrows(c: char, rest: seq<string>)
    requires rest != []
    ensures Concat([[c] + rest[0]] + rest[1..]) == [c] + Concat(rest)
  {
    hide Concat;
    ConcatFront(rest[0], rest[1..]);
    ConcatFront([c] + rest[0], rest[1..]);
    assert rest == [rest[0]] + rest[1..];
    assert [c] + rest[0] + Concat(rest[1..]) == [c] + (rest[0] + Concat(rest[1..]));
  }

  lemma {:induction false} PiecesKeepText(sql: string)
    ensures Bare(Concat(Pieces(sql))) == Bare(sql)
  {
    if sql == "" {
      assert [""][..0] == [];
    } else {
      var rest := Pieces(sql[1..]);
      PiecesKeepText(sql[1..]);
      if sql[0] == ';' {
        ConcatFront("", rest);
        assert "" + Concat(rest) == Concat(rest);
      } else {
        FirstGrows(sql[0], rest);
        assert ([sql[0]] + Concat(rest))[1..] == Concat(rest);
      }
    }
  }

  lemma {:induction false} KeptKeepsText(parts: seq<string>)
    ensures Bare(Concat(Kept(parts))) == Bare(Concat(parts))
  {
    if parts == [] {
    } else {
      var n := |parts| - 1;
      KeptKeepsText(parts[..n]);
      TrimMeans(parts[n]);
      BareConcat(Concat(parts[..n]), parts[n]);
      assert Bare("") == "";
      hide Bare, TrimSpace;
      var kept, last := Kept(parts[..n]), TrimSpace(parts[n]);
      BareConcat(Concat(kept), last);
      assert (kept + [last])[..|kept|] == kept && Concat(kept + [last]) == Concat(kept) + last;
      assert Bare(Concat(kept)) + "" == Bare(Concat(kept));
      assert kept + [] == kept;
      assert Kept(parts) == kept + (if last == "" then [] else [last]);
    }
  }

  /** The statements in order are the whole text, but for blanks and semicolons. */
  lemma NothingIsLost(sql: string)
    ensures Bare(Concat(Statements(sql))) == Bare(sql)
  {
    PiecesKeepText(sql);
    KeptKeepsText(Pieces(sql));
  }

  /** The blanks of ASCII, and some characters that are none. */
  lemma Blanks()
    ensures forall c :: c in ['\t', '\n', '\U{B}', '\U{C}', '\r', ' '] ==> IsSpace(c)
    ensures forall c :: '!' <= c <= '~' ==> !IsSpace(c)
  {
  }

  lemma Cut(s: string, t: string)
    requires ';' !in s
    ensures Statements(s + ";" + t) ==
            (if TrimSpace(s) == "" then [] else [TrimSpace(s)]) + Statements(t)
  {
    PiecesOfJoined(s, t);
    KeptFront(s, Pieces(t));
  }

  lemma {:induction false} KeptFront(s: string, parts: seq<string>)
    ensures Kept([s] + parts) == (if TrimSpace(s) == "" then [] else [TrimSpace(s)]) + Kept(parts)
  {
    if parts == [] {
      assert [s] + parts == [s] && [s][..0] == [];
    } else {
      var n := |parts| - 1;
      KeptFront(s, parts[..n]);
      assert ([s] + parts)[..n + 1] == [s] + parts[..n] && ([s] + parts)[n + 1] == parts[n];
    }
  }

  /** Statements on lines of their own. */
  lemma TwoLines()
    ensures Statements("a;\n b ;\n") == ["a", "b"]
  {
    var rest := "\n b ;\n";
    assert "a;\n b ;\n" == "a" + ";" + rest && rest == "\n b " + ";" + "\n";
    Cut("a", rest);
    Cut("\n b ", "\n");
    PiecesOfJoined("\n", "");
    TrimmedTexts();
    hide TrimSpace;
    assert Kept(["\n"]) == [] by { assert ["\n"][..0] == []; }
    assert Statements("\n") == [];
    hide Statements;
    assert Statements(rest) == ["b"] + [] == ["b"] && ["a"] + ["b"] == ["a", "b"];
  }

  lemma TrimmedTexts()
    ensures TrimSpace("a") == "a" && TrimSpace("\n b ") == "b" && TrimSpace("\n") == ""
  {
    assert TrimLeft("\n b ") == "b " by { assert "\n b "[1..] == " b " && " b "[1..] == "b "; }
    assert TrimRight("b ") == "b" by { assert "b "[..1] == "b"; }
    assert TrimLeft("\n") == "" by { assert "\n"[1..] == ""; }
  }
}
