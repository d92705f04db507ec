/** The agent's .env file: keys in sorted order, one line each, whatever order the map is walked in. */
module Dotenv {
  import opened SecretText
  import opened Sets

  // ---------- sort.Strings ----------

  predicate StrLess(a: string, b: string) {
    b != "" && (a == "" || a[0] < b[0] || (a[0] == b[0] && StrLess(a[1..], b[1..])))
  }

  lemma {:induction false} LessTotal(a: string, b: string)
    ensures StrLess(a, b) || StrLess(b, a) || a == b
    ensures !(StrLess(a, b) && StrLess(b, a)) && !StrLess(a, a)
  {
    if a != "" { LessTotal(a[1..], a[1..]); }
    if a != "" && b != "" {
      LessTotal(a[1..], b[1..]);
      if a[0] == b[0] && a[1..] == b[1..] { assert a == [a[0]] + a[1..] && b == [b[0]] + b[1..]; }
    }
  }

  lemma {:induction false} LessTransitive(a: string, b: string, c: string)
    requires StrLess(a, b) && StrLess(b, c)
    ensures StrLess(a, c)
  {
    if a != "" && a[0] == b[0] == c[0] { LessTransitive(a[1..], b[1..], c[1..]); }
  }

  predicate Increasing(keys: seq<string>) {
    forall i, j | 0 <= i < j < |keys| :: StrLess(keys[i], keys[j])
  }

  ghost predicate SortsSet(s: set<string>, keys: seq<string>) {
    Increasing(keys) && (forall k :: k in keys <==> k in s)
  }

  /** A set has only one increasing listing. */
  lemma {:induction false} SortedIsUnique(s: set<string>, a: seq<string>, b: seq<string>)
    requires SortsSet(s, a) && SortsSet(s, b)
    ensures a == b
  {
    assert forall k :: k in a <==> k in b;
    if b != [] { assert b[0] in b; }
    if a == [] {
    } else {
      assert a[0] in b && b[0] in a;
      FirstIsLeast(s, a, b[0]);
      FirstIsLeast(s, b, a[0]);
      LessTotal(a[0], b[0]);
      TailSorts(s, a);
      TailSorts(s, b);
      SortedIsUnique(s - {a[0]}, a[1..], b[1..]);
      assert a == [a[0]] + a[1..] && b == [b[0]] + b[1..];
    }
  }

  lemma FirstIsLeast(s: set<string>, a: seq<string>, k: string)
    requires SortsSet(s, a) && k in s
    ensures a != [] && (k == a[0] || StrLess(a[0], k))
  {
    assert k in a;
  }

  lemma TailSorts(s: set<string>, a: seq<string>)
    requires SortsSet(s, a) && a != []
    ensures SortsSet(s - {a[0]}, a[1..])
  {
    forall k ensures k in a[1..] <==> k in s - {a[0]} {
      if k in a[1..] {
        var i :| 0 <= i < |a[1..]| && a[1..][i] == k;
        assert a[i + 1] == k && StrLess(a[0], a[i + 1]);
        LessTotal(k, k);
      }
      if k in s - {a[0]} {
        var i :| 0 <= i < |a| && a[i] == k;
        assert a[1..][i - 1] == k;
      }
    }
  }

  /** Insertion sort of distinct keys. */
  method SortStrings(keys: seq<string>) returns (sorted: seq<string>)
    requires forall i, j | 0 <= i < j < |keys| :: keys[i] != keys[j]
    ensures Increasing(sorted) && forall k :: k in sorted <==> k in keys
  {
    sorted := [];
    var n := 0;
    while n < |keys|
      invariant 0 <= n <= |keys|
      invariant Increasing(sorted) && forall k :: k in sorted <==> k in keys[..n]
    {
      assert keys[n] !in keys[..n];
      sorted := InsertSorted(sorted, keys[n]);
      assert keys[..n + 1] == keys[..n] + [keys[n]];
      n := n + 1;
    }
    assert keys[..n] == keys;
  }

  method InsertSorted(a: seq<string>, k: string) returns (r: seq<string>)
    requires Increasing(a) && k !in a
    ensures Increasing(r) && forall x :: x in r <==> x in a || x == k
  {
    var i := 0;
    while i < |a| && StrLess(a[i], k)
      invariant 0 <= i <= |a|
      invariant forall j | 0 <= j < i :: StrLess(a[j], k)
    {
      i := i + 1;
    }
    r := a[..i] + [k] + a[i..];
    if i < |a| { LessTotal(a[i], k); assert a[i] in a; }
    InsertedStaysSorted(a, i, k);
    assert a == a[..i] + a[i..];
  }

  lemma InsertedStaysSorted(a: seq<string>, i: nat, k: string)
    requires Increasing(a) && i <= |a|
    requires (forall j | 0 <= j < i :: StrLess(a[j], k)) && (i < |a| ==> StrLess(k, a[i]))
    ensures Increasing(a[..i] + [k] + a[i..])
  {
    forall j | i <= j < |a| ensures StrLess(k, a[j]) {
      if j > i { LessTransitive(k, a[i], a[j]); }
    }
    hide StrLess;
  }

  // ---------- writer ----------

  /** Every newline becomes a backslash and an n. */
  function Escape(v: string): (w: string)
    ensures '\n' !in w
    ensures '\r' !in v <==> '\r' !in w
    ensures '\n' !in v <==> w == v
    ensures |w| >= |v|
  {
    if v == "" then "" else (if v[0] == '\n' then "\\n" else [v[0]]) + Escape(v[1..])
  }

  function RowsFor(env: Env, keys: seq<string>): Rows
    requires forall k | k in keys :: k in env
  {
    seq(|keys|, i requires 0 <= i < |keys| => (keys[i], Escape(env[keys[i]])))
  }

  /** `text` is the file for `env`: its entries, escaped, by increasing key. */
  ghost predicate IsDotenv(env: Env, text: string) {
    exists keys :: SortsSet(env.Keys, keys) && (forall k | k in keys :: k in env) && text == Print(RowsFor(env, keys))
  }

  /** No file is written for an empty map. */
  method WriteDotenv(env: Env) returns (text: string, wrote: bool)
    ensures wrote <==> env != map[]
    ensures wrote ==> IsDotenv(env, text)
  {
    if env == map[] { return "", false; }
    var keys := Collect(env.Keys);
    var sorted := SortStrings(keys);
    assert SortsSet(env.Keys, sorted);
    text := WriteLines(env, sorted);
    wrote := true;
  }

  method WriteLines(env: Env, keys: seq<string>) returns (text: string)
    requires forall k | k in keys :: k in env
    ensures text == Print(RowsFor(env, keys))
  {
    text := "";
    var i := 0;
    ghost var rows := RowsFor(env, keys);
    while i < |keys|
      invariant 0 <= i <= |keys|
      invariant Print(rows) == text + Print(rows[i..])
    {
      assert keys[i] in keys;
      PrintFrom(rows, i);
      hide Print, Escape;
      text := text + (keys[i] + "=" + Escape(env[keys[i]]) + "\n");
      i := i + 1;
    }
  }

  /** The bytes do not depend on the order in which the map was walked. */
  lemma DotenvIsDeterministic(env: Env, a: string, b: string)
    requires IsDotenv(env, a) && IsDotenv(env, b)
    ensures a == b
  {
    var ka :| SortsSet(env.Keys, ka) && (forall k | k in ka :: k in env) && a == Print(RowsFor(env, ka));
    var kb :| SortsSet(env.Keys, kb) && (forall k | k in kb :: k in env) && b == Print(RowsFor(env, kb));
    SortedIsUnique(env.Keys, ka, kb);
  }

  function Escaped(env: Env): Env { map k | k in env :: Escape(env[k]) }

  lemma RowsListEscaped(env: Env, keys: seq<string>)
    requires SortsSet(env.Keys, keys) && (forall k | k in keys :: k in env)
    ensures ListsEnv(RowsFor(env, keys), Escaped(env))
  {
    var rows := RowsFor(env, keys);
    assert forall i | 0 <= i < |rows| :: keys[i] in keys && rows[i].0 == keys[i];
    forall i, j | 0 <= i < j < |rows| ensures rows[i].0 != rows[j].0 {
      LessTotal(keys[i], keys[j]);
      assert StrLess(keys[i], keys[j]);
    }
    hide StrLess, Increasing, Escape;
    forall k | k in Escaped(env) ensures exists i :: 0 <= i < |rows| && rows[i].0 == k {
      assert k in keys;
      var i :| 0 <= i < |keys| && keys[i] == k;
      assert rows[i].0 == k;
    }
  }

  lemma RowsAreClean(env: Env, keys: seq<string>)
    requires CleanEnv(Escaped(env)) && (forall k | k in keys :: k in env)
    ensures Clean(RowsFor(env, keys))
  {
    var rows := RowsFor(env, keys);
    hide ValidKey;
    forall i | 0 <= i < |rows| ensures ValidKey(rows[i].0) && OneLine(rows[i].1) {
      assert keys[i] in keys && rows[i].0 in Escaped(env);
    }
  }

  lemma EscapedIsClean(env: Env)
    ensures CleanEnv(Escaped(env)) <==> forall k | k in env :: ValidKey(k) && '\r' !in env[k]
  {
    hide ValidKey, Escape;
    assert forall k | k in env :: k in Escaped(env) && Escaped(env)[k] == Escape(env[k]);
  }

  lemma CleanReadsBack(env: Env, text: string)
    requires CleanEnv(Escaped(env)) && IsDotenv(env, text)
    ensures Parse(text) == Parsed(Escaped(env))
  {
    var keys :| SortsSet(env.Keys, keys) && (forall k | k in keys :: k in env) && text == Print(RowsFor(env, keys));
    RowsListEscaped(env, keys);
    RowsAreClean(env, keys);
    hide Parse, SortsSet, ValidKey, Print, Escaped, RowsFor, Clean;
    ListedEnv(RowsFor(env, keys), Escaped(env));
    ParseOfPrint(RowsFor(env, keys));
  }

  /** The form's parser reads the file of any map back as the map with its newlines escaped exactly when every
      key is a valid name and no value holds a carriage return. */
  lemma DotenvReadsBackIff(env: Env, text: string)
    requires IsDotenv(env, text)
    ensures Parse(text) == Parsed(Escaped(env)) <==> forall k | k in env :: ValidKey(k) && '\r' !in env[k]
  {
    EscapedIsClean(env);
    hide ValidKey, Escaped, IsDotenv, Parse, CleanEnv;
    if CleanEnv(Escaped(env)) { CleanReadsBack(env, text); }
    if Parse(text) == Parsed(Escaped(env)) { AcceptedIsClean(text); }
  }

  /** It reads it back as the very map exactly when every key is a valid name and no value holds a line break
      of either kind. */
  lemma DotenvKeepsValuesIff(env: Env, text: string)
    requires IsDotenv(env, text)
    ensures Parse(text) == Parsed(env) <==> CleanEnv(env)
  {
    if CleanEnv(env) {
      EscapedIsSame(env);
      CleanReadsBack(env, text);
    }
    hide IsDotenv, Parse, CleanEnv;
    if Parse(text) == Parsed(env) { AcceptedIsClean(text); }
  }

  /** A value with a newline comes back as another value. */
  lemma NewlineIsLost(text: string)
    requires IsDotenv(map["A" := "x\ny"], text)
    ensures Parse(text).Parsed? && Parse(text) != Parsed(map["A" := "x\ny"])
  {
    var env: Env := map["A" := "x\ny"];
    assert '\n' in env["A"] && ValidKey("A");
    DotenvReadsBackIff(env, text);
    DotenvKeepsValuesIff(env, text);
    hide Parse, IsDotenv, Escape;
  }

  lemma EscapedIsSame(env: Env)
    requires CleanEnv(env)
    ensures Escaped(env) == env
  {
    hide ValidKey, Escape;
  }

  /** What an operator saves in the form is what the build finds in its .env file. */
  lemma SecretsSurvive(raw: string, text: string)
    requires Parse(raw).Parsed? && IsDotenv(Parse(raw).env, text)
    ensures Parse(text) == Parse(raw)
  {
    AcceptedIsClean(raw);
    DotenvKeepsValuesIff(Parse(raw).env, text);
  }
}
