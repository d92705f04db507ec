/** What the form's parser and the two writers do, said of the characters of the text. */
module SecretLines {
  import opened SecretText
  import opened Dotenv

  // ---------- characters ----------

  /** White space, by code point. */
  lemma SpaceMeans(c: char)
    ensures IsSpace(c) <==>
      var n := c as int;
      9 <= n <= 13 || 0x2000 <= n <= 0x200A || n in {32, 0x85, 0xA0, 0x1680, 0x2028, 0x2029, 0x202F, 0x205F, 0x3000}
  {
  }

  predicate AllSpace(s: string) { forall i | 0 <= i < |s| :: IsSpace(s[i]) }

  lemma {:induction false} TrimLeftMeans(s: string) returns (i: nat)
    ensures i <= |s| && TrimLeft(s) == s[i..] && AllSpace(s[..i])
  {
    if s != "" && IsSpace(s[0]) {
      var k := TrimLeftMeans(s[1..]);
      i := k + 1;
      assert s[1..][k..] == s[i..];
      assert forall m | 0 < m < i :: s[m] == s[1..][..k][m - 1];
    } else {
      i := 0;
    }
  }

  lemma {:induction false} TrimRightMeans(s: string) returns (j: nat)
    ensures j <= |s| && TrimRight(s) == s[..j] && AllSpace(s[j..]) && (j > 0 ==> !IsSpace(s[j - 1]))
  {
    if s != "" && IsSpace(s[|s| - 1]) {
      j := TrimRightMeans(s[..|s| - 1]);
      assert s[..|s| - 1][..j] == s[..j];
      assert forall m | j <= m < |s| - 1 :: s[m] == s[..|s| - 1][j..][m - j];
    } else {
      j := |s|;
    }
  }

  /** What is trimmed is space, and what is left neither begins nor ends with it. */
  lemma TrimMeans(s: string) returns (i: nat, j: nat)
    ensures i <= j <= |s| && TrimSpace(s) == s[i..j] && AllSpace(s[..i]) && AllSpace(s[j..])
    ensures i < j ==> !IsSpace(s[i]) && !IsSpace(s[j - 1])
  {
    i := TrimLeftMeans(s);
    var n := TrimRightMeans(s[i..]);
    j := i + n;
    assert s[i..][..n] == s[i..j] && s[i..][n..] == s[j..];
    if i < j {
      assert TrimLeft(s) != "" && TrimLeft(s)[0] == s[i];
      assert s[i..][n - 1] == s[j - 1];
    }
  }

  // ---------- one line ----------

  /** All space, or a `#` after space. */
  predicate Ignored(line: string) {
    (forall i | 0 <= i < |line| :: IsSpace(line[i])) ||
    exists i | 0 <= i < |line| :: line[i] == '#' && forall k | 0 <= k < i :: IsSpace(line[k])
  }

  lemma IgnoredMeans(line: string)
    ensures ReadLine(line) == Blank <==> Ignored(line)
  {
    var i, j := TrimMeans(line);
    if i < j {
      assert TrimSpace(line)[0] == line[i];
      assert forall k | 0 <= k < i :: line[k] == line[..i][k];
      if exists m | 0 <= m < |line| :: line[m] == '#' && forall k | 0 <= k < m :: IsSpace(line[k]) {
        var m :| 0 <= m < |line| && line[m] == '#' && forall k | 0 <= k < m :: IsSpace(line[k]);
        assert !IsSpace(line[m]) && m == i;
      }
    } else {
      assert forall k | 0 <= k < |line| :: line[k] == if k < i then line[..i][k] else line[j..][k - j];
      assert !IsSpace('#');
    }
    hide TrimSpace, IsSpace;
  }

  /** A name: a letter or underscore, then letters, digits and underscores. */
  predicate IsName(k: string) {
    && k != "" && ('A' <= k[0] <= 'Z' || 'a' <= k[0] <= 'z' || k[0] == '_')
    && forall i | 0 <= i < |k| :: 'A' <= k[i] <= 'Z' || 'a' <= k[i] <= 'z' || k[i] == '_' || '0' <= k[i] <= '9'
  }

  /** The line is space, `key`, space, the first `=`, and `value` as it stands. */
  predicate Assigns(line: string, key: string, value: string) {
    exists i, j, e | 0 <= i <= j <= e < |line| ::
      && line[e] == '=' && '=' !in line[..e] && AllSpace(line[..i]) && AllSpace(line[j..e])
      && key == line[i..j] && value == line[e + 1..]
  }

  lemma FirstEquals(line: string, e: nat)
    requires e < |line| && line[e] == '=' && '=' !in line[..e]
    ensures EqualsAt(line) == e
  {
    assert forall m | 0 <= m < e :: line[m] == line[..e][m];
  }

  /** Spaces around a name can be told from it in one way only. */
  lemma SameTrim(s: string, i: nat, j: nat)
    requires i <= j <= |s| && AllSpace(s[..i]) && AllSpace(s[j..]) && IsName(s[i..j])
    ensures TrimSpace(s) == s[i..j]
  {
    var a, b := TrimMeans(s);
    var k := s[i..j];
    assert k[0] == s[i] && k[|k| - 1] == s[j - 1] && !IsSpace(s[i]) && !IsSpace(s[j - 1]);
    assert forall m | 0 <= m < i :: s[m] == s[..i][m];
    assert forall m | j <= m < |s| :: s[m] == s[j..][m - j];
    assert forall m | 0 <= m < a :: s[m] == s[..a][m];
    assert forall m | b <= m < |s| :: s[m] == s[b..][m - b];
  }

  lemma NamesAreKeys(k: string)
    ensures IsName(k) <==> ValidKey(k)
  {
  }

  lemma ReadEquals(line: string, e: nat)
    requires e < |line| && EqualsAt(line) == e
    ensures var name := TrimSpace(line[..e]);
      ReadLine(line) ==
        if ReadLine(line) == Blank then Blank else if name == "" then Bad(EmptyKey)
        else if !ValidKey(name) then Bad(BadKey) else Entry(name, line[e + 1..])
  {
  }

  lemma OneReading(line: string, key: string, value: string, e: nat)
    requires e < |line| && EqualsAt(line) == e && IsName(key) && Assigns(line, key, value)
    ensures key == TrimSpace(line[..e]) && value == line[e + 1..]
  {
    var a, b, c :| 0 <= a <= b <= c < |line| && line[c] == '=' && '=' !in line[..c] && AllSpace(line[..a]) &&
      AllSpace(line[b..c]) && key == line[a..b] && value == line[c + 1..];
    FirstEquals(line, c);
    assert line[..e][..a] == line[..a] && line[..e][b..] == line[b..e] && line[..e][a..b] == key;
    SameTrim(line[..e], a, b);
  }

  lemma SpaceBefore(line: string, k: nat, e: nat)
    requires k < |line| && line[k] == '=' && AllSpace(line[..k]) && e < |line| && EqualsAt(line) == e
    ensures k == e && AllSpace(line[..e])
  {
    assert forall m | 0 <= m < k :: line[m] == line[..k][m];
    assert !IsSpace('=');
    assert line[..e] == line[..k][..if e < k then e else k];
  }

  lemma NothingLeft(s: string, i: nat, j: nat)
    requires AllSpace(s) && i <= j <= |s| && TrimSpace(s) == s[i..j]
    ensures i == j
  {
    var a, b := TrimMeans(s);
    assert |s[i..j]| == |s[a..b]|;
  }

  lemma SpaceAll(s: string, i: nat)
    requires i <= |s| && AllSpace(s[..i]) && AllSpace(s[i..])
    ensures AllSpace(s)
  {
    assert forall k | 0 <= k < |s| :: s[k] == if k < i then s[..i][k] else s[i..][k - i];
  }

  lemma NameAssigns(line: string, e: nat)
    requires e < |line| && EqualsAt(line) == e
    ensures Assigns(line, TrimSpace(line[..e]), line[e + 1..])
  {
    var i, j := TrimMeans(line[..e]);
    assert line[..e][i..j] == line[i..j] && line[..e][..i] == line[..i] && line[..e][j..] == line[j..e];
    assert line[e] == '=' && '=' !in line[..e];
    hide TrimSpace, EqualsAt, IsSpace;
  }

  lemma EmptyName(line: string, e: nat)
    requires e < |line| && EqualsAt(line) == e
    ensures TrimSpace(line[..e]) == "" <==> exists k | 0 <= k < |line| :: line[k] == '=' && AllSpace(line[..k])
  {
    var i, j := TrimMeans(line[..e]);
    if exists k | 0 <= k < |line| :: line[k] == '=' && AllSpace(line[..k]) {
      var k :| 0 <= k < |line| && line[k] == '=' && AllSpace(line[..k]);
      SpaceBefore(line, k, e);
      NothingLeft(line[..e], i, j);
    }
    if i == j { SpaceAll(line[..e], i); }
    assert line[e] == '=';
    hide TrimSpace, EqualsAt, AllSpace;
  }

  /** What a line is taken for. */
  lemma LineMeans(line: string)
    ensures ReadLine(line) == Blank <==> Ignored(line)
    ensures ReadLine(line) == Bad(MissingEquals) <==> !Ignored(line) && '=' !in line
    ensures forall key, value :: ReadLine(line) == Entry(key, value) <==> !Ignored(line) && IsName(key) && Assigns(line, key, value)
    ensures ReadLine(line) == Bad(EmptyKey) <==>
      !Ignored(line) && exists e | 0 <= e < |line| :: line[e] == '=' && AllSpace(line[..e])
  {
    IgnoredMeans(line);
    var e := EqualsAt(line);
    if e < |line| {
      EqualsLine(line, e);
    } else {
      assert forall k | 0 <= k < |line| :: line[k] != '=';
    }
    hide Ignored, EqualsAt, AllSpace, IsName;
  }

  lemma EqualsLine(line: string, e: nat)
    requires e < |line| && EqualsAt(line) == e
    requires ReadLine(line) == Blank <==> Ignored(line)
    ensures '=' in line && ReadLine(line) != Bad(MissingEquals)
    ensures forall key, value :: ReadLine(line) == Entry(key, value) <==> !Ignored(line) && IsName(key) && Assigns(line, key, value)
    ensures ReadLine(line) == Bad(EmptyKey) <==>
      !Ignored(line) && exists k | 0 <= k < |line| :: line[k] == '=' && AllSpace(line[..k])
  {
    var name := TrimSpace(line[..e]);
    ReadEquals(line, e);
    NamesAreKeys(name);
    NameAssigns(line, e);
    EmptyName(line, e);
    assert line[e] == '=';
    assert name == "" ==> !IsName(name);
    hide Ignored, Assigns, IsName, AllSpace, ValidKey, TrimSpace, EqualsAt, ReadLine;
    forall key, value | IsName(key) && Assigns(line, key, value) ensures key == name && value == line[e + 1..] {
      OneReading(line, key, value, e);
    }
  }

  // ---------- the whole text ----------

  predicate IsEntry(line: string, key: string) { ReadLine(line).Entry? && ReadLine(line).key == key }

  /** The first bad line decides, by its number from one; otherwise each key has the value of its last line. */
  lemma {:induction false} LinesMean(lines: seq<string>, n: nat)
    requires n <= |lines|
    ensures ReadLines(lines, n).Rejected? <==> exists m | 0 <= m < n :: ReadLine(lines[m]).Bad?
    ensures ReadLines(lines, n).Rejected? ==>
      var l := ReadLines(lines, n).line;
      1 <= l <= n && ReadLine(lines[l - 1]) == Bad(ReadLines(lines, n).error) && forall m | 0 <= m < l - 1 :: !ReadLine(lines[m]).Bad?
    ensures ReadLines(lines, n).Parsed? ==>
      forall k :: k in ReadLines(lines, n).env <==> exists m | 0 <= m < n :: IsEntry(lines[m], k)
    ensures ReadLines(lines, n).Parsed? ==>
      forall k, m | 0 <= m < n && IsEntry(lines[m], k) && (forall j | m < j < n :: !IsEntry(lines[j], k)) ::
        k in ReadLines(lines, n).env && ReadLines(lines, n).env[k] == ReadLine(lines[m]).value
  {
    hide ReadLine;
    if n == 0 {
    } else {
      LinesMean(lines, n - 1);
    }
  }

  /** The lines put together again, with a newline between two of them. */
  function Join(lines: seq<string>): string
    requires lines != []
  {
    if |lines| == 1 then lines[0] else lines[0] + "\n" + Join(lines[1..])
  }

  lemma {:induction false} SplitMeans(s: string)
    ensures Join(Split(s)) == s && forall l | l in Split(s) :: '\n' !in l
  {
    if s == "" {
    } else {
      SplitMeans(s[1..]);
      var rest := Split(s[1..]);
      assert s == [s[0]] + s[1..];
      if s[0] == '\n' {
        assert ([""] + rest)[1..] == rest;
      } else {
        assert ([[s[0]] + rest[0]] + rest[1..])[1..] == rest[1..];
      }
    }
  }

  lemma ReplaceCrLfMeans(t: string, c: char)
    ensures ReplaceCrLf("\r\n" + t) == "\n" + ReplaceCrLf(t)
    ensures c != '\r' || t == "" || t[0] != '\n' ==> ReplaceCrLf([c] + t) == [c] + ReplaceCrLf(t)
  {
    assert ("\r\n" + t)[2..] == t;
    assert ([c] + t)[1..] == t;
  }

  lemma ReplaceCrMeans(t: string, c: char)
    ensures ReplaceCr([c] + t) == [if c == '\r' then '\n' else c] + ReplaceCr(t)
  {
    assert ([c] + t)[1..] == t;
  }

  /** Every line end becomes a newline, CR LF as well as a CR of its own; nothing else changes. */
  lemma LineEndsMean(t: string, c: char)
    ensures Normalize("") == ""
    ensures Normalize("\r\n" + t) == "\n" + Normalize(t)
    ensures t == "" || t[0] != '\n' ==> Normalize("\r" + t) == "\n" + Normalize(t)
    ensures c != '\r' ==> Normalize([c] + t) == [c] + Normalize(t)
  {
    ReplaceCrLfMeans(t, c);
    ReplaceCrLfMeans(t, '\r');
    ReplaceCrMeans(ReplaceCrLf(t), '\n');
    ReplaceCrMeans(ReplaceCrLf(t), '\r');
    ReplaceCrMeans(ReplaceCrLf(t), c);
  }

  /** What the parser answers for a text is said of its lines, which are the text with its line ends made newlines. */
  lemma ParseMeans(raw: string) returns (lines: seq<string>)
    ensures lines != [] && Join(lines) == Normalize(raw) && forall l | l in lines :: '\n' !in l
    ensures Parse(raw).Rejected? <==> exists m | 0 <= m < |lines| :: ReadLine(lines[m]).Bad?
    ensures Parse(raw).Rejected? ==>
      var l := Parse(raw).line;
      1 <= l <= |lines| && ReadLine(lines[l - 1]) == Bad(Parse(raw).error) && forall m | 0 <= m < l - 1 :: !ReadLine(lines[m]).Bad?
    ensures Parse(raw).Parsed? ==> forall k :: k in Parse(raw).env <==> exists m | 0 <= m < |lines| :: IsEntry(lines[m], k)
    ensures Parse(raw).Parsed? ==>
      forall k, m | 0 <= m < |lines| && IsEntry(lines[m], k) && (forall j | m < j < |lines| :: !IsEntry(lines[j], k)) ::
        k in Parse(raw).env && Parse(raw).env[k] == ReadLine(lines[m]).value
  {
    lines := Split(Normalize(raw));
    SplitMeans(Normalize(raw));
    assert Parse(raw) == ReadLines(lines, |lines|);
    hide Parse, ReadLines, ReadLine, Split, Normalize, Join, IsEntry;
    LinesMean(lines, |lines|);
  }

  // ---------- the writers ----------

  lemma PrintFirst(rows: Rows)
    requires rows != []
    ensures Print(rows) == (rows[0].0 + "=" + rows[0].1 + "\n") + Print(rows[1..])
  {
  }

  lemma {:induction false} PrintMeans(rows: Rows, key: string, value: string)
    ensures Print([]) == ""
    ensures Print(rows + [(key, value)]) == Print(rows) + key + "=" + value + "\n"
  {
    var all := rows + [(key, value)];
    if rows == [] {
      assert all[1..] == [] && all[0] == (key, value);
    } else {
      PrintMeans(rows[1..], key, value);
      PrintFirst(rows);
      PrintFirst(all);
      assert all[1..] == rows[1..] + [(key, value)] && all[0] == rows[0];
      var head := rows[0].0 + "=" + rows[0].1 + "\n";
      hide Print;
      assert head + (Print(rows[1..]) + key + "=" + value + "\n") == (head + Print(rows[1..])) + key + "=" + value + "\n";
    }
  }

  /** In the file every newline of a value is a backslash and an n; every other character stays. */
  lemma EscapeMeans(v: string, c: char)
    ensures Escape("") == "" && Escape("\n" + v) == ['\\', 'n'] + Escape(v)
    ensures c != '\n' ==> Escape([c] + v) == [c] + Escape(v)
  {
    assert ("\n" + v)[1..] == v;
    assert ([c] + v)[1..] == v;
  }

  /** Sorted means: by the first character that differs, a prefix first. */
  lemma {:induction false} LessMeans(a: string, b: string)
    ensures StrLess(a, b) <==>
      (a != b && a <= b) || exists i | 0 <= i < |a| && i < |b| :: a[..i] == b[..i] && a[i] < b[i]
  {
    if a == "" || b == "" {
      if a == "" { assert a <= b; }
    } else if a[0] != b[0] {
      assert a[..0] == b[..0];
      forall i | 0 < i < |a| && i < |b| ensures a[..i] != b[..i] { assert a[..i][0] == a[0] && b[..i][0] == b[0]; }
    } else {
      LessMeans(a[1..], b[1..]);
      LessTail(a, b);
    }
  }

  lemma LessTail(a: string, b: string)
    requires a != "" && b != "" && a[0] == b[0]
    ensures a == b <==> a[1..] == b[1..]
    ensures a <= b <==> a[1..] <= b[1..]
    ensures (exists i | 0 <= i < |a| && i < |b| :: a[..i] == b[..i] && a[i] < b[i]) <==>
      exists i | 0 <= i < |a[1..]| && i < |b[1..]| :: a[1..][..i] == b[1..][..i] && a[1..][i] < b[1..][i]
  {
    assert a == [a[0]] + a[1..] && b == [b[0]] + b[1..];
    forall i | 0 < i < |a| && i < |b| ensures a[..i] == b[..i] <==> a[1..][..i - 1] == b[1..][..i - 1] {
      assert a[..i] == [a[0]] + a[1..][..i - 1] && b[..i] == [b[0]] + b[1..][..i - 1];
      assert a[..i][1..] == a[1..][..i - 1] && b[..i][1..] == b[1..][..i - 1];
    }
    if i :| 0 <= i < |a| && i < |b| && a[..i] == b[..i] && a[i] < b[i] {
      assert a[1..][..i - 1] == b[1..][..i - 1] && a[1..][i - 1] < b[1..][i - 1];
    }
    if i :| 0 <= i < |a[1..]| && i < |b[1..]| && a[1..][..i] == b[1..][..i] && a[1..][i] < b[1..][i] {
      assert a[..i + 1] == b[..i + 1] && a[i + 1] < b[i + 1];
    }
  }
}
