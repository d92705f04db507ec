/** Build secrets as text: the admin form's parser and printer, and the agent's .env writer. */
module SecretText {
  type Env = map<string, string>

  datatype LineError = MissingEquals | EmptyKey | BadKey
  datatype ParseResult = Parsed(env: Env) | Rejected(line: nat, error: LineError)
  datatype Line = Blank | Entry(key: string, value: string) | Bad(error: LineError)

  // ---------- characters ----------

  /** White space as Go's unicode.IsSpace has it. */
  predicate IsSpace(c: char) {
    || c in {'\t', '\n', '\U{0B}', '\U{0C}', '\r', ' ', '\U{85}', '\U{A0}', '\U{1680}'}
    || '\U{2000}' <= c <= '\U{200A}'
    || c in {'\U{2028}', '\U{2029}', '\U{202F}', '\U{205F}', '\U{3000}'}
  }

  predicate KeyStart(c: char) { 'A' <= c <= 'Z' || 'a' <= c <= 'z' || c == '_' }

  predicate KeyChar(c: char) { KeyStart(c) || '0' <= c <= '9' }

  predicate ValidKey(k: string) {
    k != "" && KeyStart(k[0]) && forall i | 0 <= i < |k| :: KeyChar(k[i])
  }

  predicate OneLine(v: string) { '\r' !in v && '\n' !in v }

  // ---------- the library calls ----------

  function TrimLeft(s: string): (t: string)
    ensures t != "" ==> !IsSpace(t[0])
    ensures s != "" && !IsSpace(s[0]) ==> t == s
  {
    if s != "" && IsSpace(s[0]) then TrimLeft(s[1..]) else s
  }

  function TrimRight(s: string): (t: string)
    ensures t <= s
    ensures s != "" && !IsSpace(s[0]) ==> t != ""
    ensures s != "" && !IsSpace(s[|s| - 1]) ==> t == s
  {
    if s != "" && IsSpace(s[|s| - 1]) then TrimRight(s[..|s| - 1]) else s
  }

  function TrimSpace(s: string): string { TrimRight(TrimLeft(s)) }

  function ReplaceCrLf(s: string): (t: string)
    ensures '\r' !in s ==> t == s
  {
    if s == "" then ""
    else if |s| >= 2 && s[0] == '\r' && s[1] == '\n' then "\n" + ReplaceCrLf(s[2..])
    else [s[0]] + ReplaceCrLf(s[1..])
  }

  function ReplaceCr(s: string): (t: string)
    ensures '\r' !in t
    ensures '\r' !in s ==> t == s
  {
    if s == "" then "" else [if s[0] == '\r' then '\n' else s[0]] + ReplaceCr(s[1..])
  }

  function Normalize(raw: string): string { ReplaceCr(ReplaceCrLf(raw)) }

  /** strings.Split on newline: one more piece than there are newlines. */
  function Split(s: string): (lines: seq<string>)
    ensures lines != []
    ensures forall l | l in lines :: '\n' !in l
    ensures '\r' !in s ==> forall l | l in lines :: '\r' !in l
  {
    if s == "" then [""]
    else if s[0] == '\n' then [""] + Split(s[1..])
    else var rest := Split(s[1..]); [[s[0]] + rest[0]] + rest[1..]
  }

  /** Position of the first '=', or the length. */
  function EqualsAt(s: string): (k: nat)
    ensures k <= |s|
    ensures k < |s| ==> s[k] == '='
    ensures forall i | 0 <= i < k :: s[i] != '='
  {
    if s == "" || s[0] == '=' then 0 else 1 + EqualsAt(s[1..])
  }

  // ---------- parser ----------

  function ReadLine(line: string): Line {
    var trimmed := TrimSpace(line);
    if trimmed == "" || trimmed[0] == '#' then Blank
    else
      var k := EqualsAt(line);
      if k == |line| then Bad(MissingEquals)
      else
        var key := TrimSpace(line[..k]);
        if key == "" then Bad(EmptyKey)
        else if !ValidKey(key) then Bad(BadKey)
        else Entry(key, line[k + 1..])
  }

  /** The first bad line decides; a repeated key keeps its last value. */
  function ReadLines(lines: seq<string>, n: nat): ParseResult
    requires n <= |lines|
  {
    if n == 0 then Parsed(map[])
    else
      match ReadLines(lines, n - 1)
      case Rejected(l, e) => Rejected(l, e)
      case Parsed(env) =>
        match ReadLine(lines[n - 1])
        case Blank => Parsed(env)
        case Entry(key, value) => Parsed(env[key := value])
        case Bad(e) => Rejected(n, e)
  }

  function Parse(raw: string): ParseResult {
    var lines := Split(Normalize(raw));
    ReadLines(lines, |lines|)
  }

  method ParseSecretsRaw(raw: string) returns (r: ParseResult)
    ensures r == Parse(raw)
  {
    hide TrimSpace, TrimLeft, TrimRight, ValidKey, EqualsAt, Normalize, Split;
    var lines := Split(Normalize(raw));
    var out: Env := map[];
    var i := 0;
    while i < |lines|
      invariant 0 <= i <= |lines|
      invariant ReadLines(lines, i) == Parsed(out)
    {
      var line := lines[i];
      var trimmed := TrimSpace(line);
      if trimmed != "" && trimmed[0] != '#' {
        var k := EqualsAt(line);
        if k == |line| { StaysRejected(lines, i + 1); return Rejected(i + 1, MissingEquals); }
        var key := TrimSpace(line[..k]);
        if key == "" { StaysRejected(lines, i + 1); return Rejected(i + 1, EmptyKey); }
        if !ValidKey(key) { StaysRejected(lines, i + 1); return Rejected(i + 1, BadKey); }
        out := out[key := line[k + 1..]];
      }
      i := i + 1;
    }
    r := Parsed(out);
  }

  lemma {:induction false} StaysRejected(lines: seq<string>, n: nat)
    requires n <= |lines| && ReadLines(lines, n).Rejected?
    ensures ReadLines(lines, |lines|) == ReadLines(lines, n)
    decreases |lines| - n
  {
    if n == |lines| {
    } else {
      StaysRejected(lines, n + 1);
    }
  }

  // ---------- printer ----------

  type Rows = seq<(string, string)>

  function Print(rows: Rows): string {
    if rows == [] then "" else rows[0].0 + "=" + rows[0].1 + "\n" + Print(rows[1..])
  }

  method SecretsToRawText(rows: Rows) returns (text: string)
    ensures text == Print(rows)
  {
    text := "";
    var i := 0;
    while i < |rows|
      invariant 0 <= i <= |rows|
      invariant Print(rows) == text + Print(rows[i..])
    {
      PrintFrom(rows, i);
      hide Print;
      text := text + (rows[i].0 + "=" + rows[i].1 + "\n");
      i := i + 1;
    }
  }

  lemma PrintFrom(rows: Rows, i: nat)
    requires i < |rows|
    ensures Print(rows[i..]) == (rows[i].0 + "=" + rows[i].1 + "\n") + Print(rows[i + 1..])
  {
    assert rows[i..][1..] == rows[i + 1..];
  }

  /** The map a list of rows stands for; a later row wins. */
  function ToEnv(rows: Rows): Env {
    if rows == [] then map[] else ToEnv(rows[..|rows| - 1])[rows[|rows| - 1].0 := rows[|rows| - 1].1]
  }

  /** `rows` lists the entries of `env`, each key once, in some order. */
  ghost predicate ListsEnv(rows: Rows, env: Env) {
    && (forall i, j | 0 <= i < j < |rows| :: rows[i].0 != rows[j].0)
    && (forall i | 0 <= i < |rows| :: rows[i].0 in env && env[rows[i].0] == rows[i].1)
    && (forall k | k in env :: exists i :: 0 <= i < |rows| && rows[i].0 == k)
  }

  predicate Clean(rows: Rows) {
    forall i | 0 <= i < |rows| :: ValidKey(rows[i].0) && OneLine(rows[i].1)
  }

  predicate CleanEnv(env: Env) { forall k | k in env :: ValidKey(k) && OneLine(env[k]) }

  /** A browser submits a textarea with CRLF line ends. */
  function ToCrLf(s: string): string {
    if s == "" then "" else (if s[0] == '\n' then "\r\n" else [s[0]]) + ToCrLf(s[1..])
  }

  // ---------- parse after print ----------

  lemma {:induction false} CrLfUndone(s: string)
    requires '\r' !in s
    ensures ReplaceCrLf(ToCrLf(s)) == s
  {
    if s == "" {
    } else {
      CrLfUndone(s[1..]);
      var rest := ToCrLf(s[1..]);
      if s[0] == '\n' {
        assert ("\r\n" + rest)[2..] == rest;
      } else {
        assert ([s[0]] + rest)[1..] == rest;
      }
      assert s == [s[0]] + s[1..];
    }
  }

  lemma {:induction false} SplitLine(l: string, rest: string)
    requires '\n' !in l
    ensures Split(l + "\n" + rest) == [l] + Split(rest)
  {
    var s := l + "\n" + rest;
    if l == "" {
      assert s[1..] == rest;
    } else {
      assert s[1..] == l[1..] + "\n" + rest;
      SplitLine(l[1..], rest);
      assert Split(s) == [[l[0]] + l[1..]] + Split(rest);
      assert [l[0]] + l[1..] == l;
    }
  }

  function LineOf(row: (string, string)): string { row.0 + "=" + row.1 }

  function LinesOf(rows: Rows): seq<string> { seq(|rows|, i requires 0 <= i < |rows| => LineOf(rows[i])) }

  lemma {:induction false} SplitPrint(rows: Rows)
    requires Clean(rows)
    ensures Split(Print(rows)) == LinesOf(rows) + [""]
    ensures '\r' !in Print(rows)
  {
    if rows == [] {
      assert LinesOf(rows) == [];
    } else {
      SplitPrint(rows[1..]);
      assert Print(rows) == LineOf(rows[0]) + "\n" + Print(rows[1..]);
      assert forall i | 0 <= i < |rows[0].0| :: KeyChar(rows[0].0[i]);
      SplitLine(LineOf(rows[0]), Print(rows[1..]));
      assert LinesOf(rows) == [LineOf(rows[0])] + LinesOf(rows[1..]);
    }
  }

  lemma EqualsFound(key: string, value: string)
    requires '=' !in key
    ensures EqualsAt(key + "=" + value) == |key|
  {
    var s := key + "=" + value;
    assert s[|key|] == '=';
    assert forall i | 0 <= i < |key| :: s[i] == key[i];
  }

  lemma ReadPrinted(key: string, value: string)
    requires ValidKey(key)
    ensures ReadLine(key + "=" + value) == Entry(key, value)
  {
    var line := key + "=" + value;
    EqualsFound(key, value);
    assert line[0] == key[0] && !IsSpace(key[0]);
    assert TrimLeft(line) == line && TrimRight(line) != "" && TrimRight(line)[0] == line[0];
    assert KeyChar(key[|key| - 1]);
    assert TrimSpace(key) == key;
    assert line[..|key|] == key && line[|key| + 1..] == value;
  }

  lemma {:induction false} ReadPrintedLines(rows: Rows, lines: seq<string>, n: nat)
    requires Clean(rows) && n <= |rows| && LinesOf(rows) <= lines
    ensures ReadLines(lines, n) == Parsed(ToEnv(rows[..n]))
  {
    if n == 0 {
      assert rows[..n] == [];
    } else {
      ReadPrintedLines(rows, lines, n - 1);
      assert lines[n - 1] == LinesOf(rows)[n - 1];
      ReadPrinted(rows[n - 1].0, rows[n - 1].1);
      assert rows[..n][..n - 1] == rows[..n - 1];
    }
  }

  /** Printed rows parse back to the map they stand for, with LF or with CRLF line ends. */
  lemma ParseOfPrint(rows: Rows)
    requires Clean(rows)
    ensures Parse(Print(rows)) == Parsed(ToEnv(rows))
    ensures Parse(ToCrLf(Print(rows))) == Parsed(ToEnv(rows))
  {
    SplitPrint(rows);
    CrLfUndone(Print(rows));
    var lines := LinesOf(rows) + [""];
    ReadPrintedLines(rows, lines, |rows|);
    assert rows[..|rows|] == rows;
    assert ReadLine("") == Blank;
    assert ReadLines(lines, |lines|) == ReadLines(lines, |rows|);
  }

  lemma {:induction false} ListedEnv(rows: Rows, env: Env)
    requires ListsEnv(rows, env)
    ensures ToEnv(rows) == env
  {
    if rows == [] {
      assert env == map[];
    } else {
      var n := |rows| - 1;
      var less := env - {rows[n].0};
      assert rows[..n] + [rows[n]] == rows && env == less[rows[n].0 := rows[n].1];
      forall k | k in less ensures exists i :: 0 <= i < |rows[..n]| && rows[..n][i].0 == k {
        var i :| 0 <= i < |rows| && rows[i].0 == k;
        assert rows[..n][i].0 == k;
      }
      ListedEnv(rows[..n], less);
    }
  }

  lemma {:induction false} LinesCarryCleanEntries(lines: seq<string>, n: nat)
    requires n <= |lines| && (forall l | l in lines :: OneLine(l))
    ensures ReadLines(lines, n).Parsed? ==> CleanEnv(ReadLines(lines, n).env)
  {
    if n == 0 {
    } else {
      LinesCarryCleanEntries(lines, n - 1);
      assert lines[n - 1] in lines;
    }
  }

  /** Whatever the parser accepts has valid keys and values without line breaks. */
  lemma AcceptedIsClean(raw: string)
    requires Parse(raw).Parsed?
    ensures CleanEnv(Parse(raw).env)
  {
    var lines := Split(Normalize(raw));
    LinesCarryCleanEntries(lines, |lines|);
  }

  /** Showing saved secrets in the form and submitting them unchanged saves the same secrets. */
  lemma FormRoundTrip(raw: string, rows: Rows)
    requires Parse(raw).Parsed? && ListsEnv(rows, Parse(raw).env)
    ensures Parse(Print(rows)) == Parse(raw)
    ensures Parse(ToCrLf(Print(rows))) == Parse(raw)
  {
    AcceptedIsClean(raw);
    ListedEnv(rows, Parse(raw).env);
    ParseOfPrint(rows);
  }
}
